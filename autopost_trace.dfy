/**
 * Selection with a trace: the recursive cascade of AutopostService, with
 * every decision reported through an AutopostLogger.
 *
 * AutopostService.selectContent does not call the logger itself. The
 * autopost logging tests fix which events a selection logs and the fields
 * of each, not their order or number; the order here is this model's
 * choice: `no_weights` when nothing is weighted, otherwise per attempt
 * `weights_loaded`, `category_picked`, then `content_selected` or
 * `category_skipped`, and `all_categories_exhausted` after the last miss.
 */
module AutopostTrace {
  import opened Wrappers
  import opened SocialMediaContent
  import opened AutopostService
  import opened AutopostLoggerService

  /** An event as the selector hands it to the logger, one case per logger method. */
  datatype Event =
    | NoWeightsEvent(accountId: AccountId)
    | WeightsLoadedEvent(accountId: AccountId, weights: seq<WeightEntry>)
    | CategoryPickedEvent(categoryId: CategoryId, randomValue: int, totalWeight: int, cumulativeAtPick: int)
    | ContentSelectedEvent(accountId: AccountId, content: Content, categoryId: CategoryId)
    | CategorySkippedEvent(accountId: AccountId, categoryId: CategoryId, remainingCategories: int)
    | ExhaustedEvent(accountId: AccountId)

  /** The event name the logger method writes as the message. */
  function Name(e: Event): string {
    match e
    case NoWeightsEvent(_) => "no_weights"
    case WeightsLoadedEvent(_, _) => "weights_loaded"
    case CategoryPickedEvent(_, _, _, _) => "category_picked"
    case ContentSelectedEvent(_, _, _) => "content_selected"
    case CategorySkippedEvent(_, _, _) => "category_skipped"
    case ExhaustedEvent(_) => "all_categories_exhausted"
  }

  /** The context the logger method passes to `log`; none carries its own request_id. */
  function EventContext(e: Event): (ctx: Context)
    ensures Lookup(ctx, "request_id").None?
  {
    match e
    case NoWeightsEvent(a) => NoWeightsContext(a)
    case WeightsLoadedEvent(a, ws) => WeightsLoadedContext(a, ws)
    case CategoryPickedEvent(c, v, t, k) => CategoryPickedContext(c, v, t, k)
    case ContentSelectedEvent(a, content, c) => ContentSelectedContext(a, content, c)
    case CategorySkippedEvent(a, c, n) => CategorySkippedContext(a, c, n)
    case ExhaustedEvent(a) => ExhaustedContext(a)
  }

  /** The entry the logger writes for an event. */
  function StampEvent(requestId: string, e: Event): LogEntry {
    Stamp(requestId, Name(e), EventContext(e))
  }

  /** The log entries a logger with this request id writes for these events, in order. */
  function Stamped(requestId: string, events: seq<Event>): (entries: seq<LogEntry>)
    ensures |entries| == |events|
  {
    if events == [] then []
    else [StampEvent(requestId, events[0])] + Stamped(requestId, events[1..])
  }

  lemma {:induction false} StampedAppend(requestId: string, a: seq<Event>, b: seq<Event>)
    ensures Stamped(requestId, a + b) == Stamped(requestId, a) + Stamped(requestId, b)
  {
    if a == [] {
      assert a + b == b;
    } else {
      assert (a + b)[0] == a[0];
      assert (a + b)[1..] == a[1..] + b;
      StampedAppend(requestId, a[1..], b);
    }
  }

  /** Entry i of a stamped run is event i's name behind the logger's request id. */
  lemma {:induction false} StampedEntries(requestId: string, events: seq<Event>)
    ensures forall i :: 0 <= i < |events| ==>
      && Stamped(requestId, events)[i].message == Name(events[i])
      && Lookup(Stamped(requestId, events)[i].context, "request_id") == Some(StrV(requestId))
  {
    if events != [] {
      StampedEntries(requestId, events[1..]);
      forall i | 0 <= i < |events|
        ensures Stamped(requestId, events)[i].message == Name(events[i])
        ensures Lookup(Stamped(requestId, events)[i].context, "request_id") == Some(StrV(requestId))
      {
        if i > 0 {
          assert Stamped(requestId, events)[i] == Stamped(requestId, events[1..])[i - 1];
          assert events[1..][i - 1] == events[i];
        } else {
          StampKeys(requestId, Name(events[0]), EventContext(events[0]));
        }
      }
    }
  }

  /** The entries for one or two events, written out. */
  lemma StampedOne(requestId: string, e: Event)
    ensures Stamped(requestId, [e]) == [StampEvent(requestId, e)]
  {
    assert [e][1..] == [];
  }

  lemma StampedTwo(requestId: string, e0: Event, e1: Event)
    ensures Stamped(requestId, [e0, e1]) == [StampEvent(requestId, e0), StampEvent(requestId, e1)]
  {
    assert [e0, e1][1..] == [e1];
    StampedOne(requestId, e1);
  }

  /** The category an attempt picks from the working set. */
  function AttemptCategory(ws: seq<WeightEntry>, draw: Option<int>, coins: Coins, attempt: nat): (categoryId: CategoryId)
    requires Positive(ws) && ws != []
    ensures categoryId in Categories(ws)
  {
    Pick(ws, ResolveDraw(draw, TotalWeight(ws), coins.draws(attempt)))
  }

  /** The two events every attempt opens with: `weights_loaded`, then `category_picked`. */
  function HeadEvents(accountId: AccountId, ws: seq<WeightEntry>, draw: Option<int>, coins: Coins, attempt: nat)
    : seq<Event>
    requires Positive(ws) && ws != []
  {
    var total := TotalWeight(ws);
    var random := ResolveDraw(draw, total, coins.draws(attempt));
    [WeightsLoadedEvent(accountId, ws),
     CategoryPickedEvent(AttemptCategory(ws, draw, coins, attempt), random, total, CumulativeAtPick(ws, random))]
  }

  /**
   * How an attempt ends: `content_selected` on a hit, or `category_skipped`
   * on a miss, followed by `all_categories_exhausted` when that miss
   * emptied the working set.
   */
  function OutcomeEvents(accountId: AccountId, categoryId: CategoryId, content: Option<Content>,
                         remaining: seq<WeightEntry>): seq<Event>
  {
    if content.Some? then [ContentSelectedEvent(accountId, content.value, categoryId)]
    else if remaining == [] then
      [CategorySkippedEvent(accountId, categoryId, |remaining|), ExhaustedEvent(accountId)]
    else [CategorySkippedEvent(accountId, categoryId, |remaining|)]
  }

  /** The events one attempt writes. */
  function AttemptEvents(store: Store, accountId: AccountId, ws: seq<WeightEntry>,
                         draw: Option<int>, coins: Coins, attempt: nat): seq<Event>
    requires Positive(ws) && ws != []
  {
    var categoryId := AttemptCategory(ws, draw, coins, attempt);
    var content := FindAvailableContent(store, accountId, categoryId, coins.ties(attempt));
    HeadEvents(accountId, ws, draw, coins, attempt) + OutcomeEvents(accountId, categoryId, content, RemoveCategory(ws, categoryId))
  }

  /** The events of one attempt and of the attempts after it. */
  function RoundEvents(store: Store, accountId: AccountId, ws: seq<WeightEntry>,
                       draw: Option<int>, coins: Coins, attempt: nat): seq<Event>
    requires Positive(ws) && ws != []
    decreases |ws|
  {
    var categoryId := AttemptCategory(ws, draw, coins, attempt);
    var events := AttemptEvents(store, accountId, ws, draw, coins, attempt);
    var content := FindAvailableContent(store, accountId, categoryId, coins.ties(attempt));
    var remaining := RemoveCategory(ws, categoryId);
    if content.Some? || remaining == [] then events
    else events + RoundEvents(store, accountId, remaining, draw, coins, attempt + 1)
  }

  /** One step of the cascade, for events and result alike. */
  lemma RoundUnfold(store: Store, accountId: AccountId, ws: seq<WeightEntry>, draw: Option<int>, coins: Coins,
                    attempt: nat, content: Option<Content>, remaining: seq<WeightEntry>)
    requires Positive(ws) && ws != []
    requires content == FindAvailableContent(store, accountId, AttemptCategory(ws, draw, coins, attempt), coins.ties(attempt))
    requires remaining == RemoveCategory(ws, AttemptCategory(ws, draw, coins, attempt))
    ensures content.Some? || remaining == [] ==>
      && RoundEvents(store, accountId, ws, draw, coins, attempt) == AttemptEvents(store, accountId, ws, draw, coins, attempt)
      && SelectFromWeights(store, accountId, ws, draw, coins, attempt) == content
    ensures content.None? && remaining != [] ==>
      && RoundEvents(store, accountId, ws, draw, coins, attempt) ==
           AttemptEvents(store, accountId, ws, draw, coins, attempt) +
           RoundEvents(store, accountId, remaining, draw, coins, attempt + 1)
      && SelectFromWeights(store, accountId, ws, draw, coins, attempt) ==
           SelectFromWeights(store, accountId, remaining, draw, coins, attempt + 1)
  {
  }

  /** The events of one traced selection. */
  function SelectionEvents(store: Store, accountId: AccountId, draw: Option<int>, coins: Coins): seq<Event> {
    var weights := LoadWeights(store.weights, accountId);
    if weights == [] then [NoWeightsEvent(accountId)]
    else RoundEvents(store, accountId, weights, draw, coins, 0)
  }

  /**
   * Every attempt opens with `weights_loaded` and `category_picked`; the
   * cascade ends in `content_selected` for the content it returns exactly
   * when it finds content, and in `all_categories_exhausted` exactly when
   * it does not.
   */
  lemma RoundOutcome(store: Store, accountId: AccountId, ws: seq<WeightEntry>,
                     draw: Option<int>, coins: Coins, attempt: nat)
    requires Positive(ws) && ws != []
    ensures var events := RoundEvents(store, accountId, ws, draw, coins, attempt);
      var r := SelectFromWeights(store, accountId, ws, draw, coins, attempt);
      && |events| >= 3
      && events[0] == WeightsLoadedEvent(accountId, ws)
      && events[1].CategoryPickedEvent?
      && events[1].categoryId == AttemptCategory(ws, draw, coins, attempt)
      && (r.Some? ==> events[|events| - 1] == ContentSelectedEvent(accountId, r.value, r.value.categoryId))
      && (r.None? ==> events[|events| - 1] == ExhaustedEvent(accountId))
  {
    RoundOpening(store, accountId, ws, draw, coins, attempt);
    RoundClosing(store, accountId, ws, draw, coins, attempt);
  }

  /** The cascade's events open with those of its first attempt. */
  lemma RoundOpening(store: Store, accountId: AccountId, ws: seq<WeightEntry>,
                     draw: Option<int>, coins: Coins, attempt: nat)
    requires Positive(ws) && ws != []
    ensures var events := RoundEvents(store, accountId, ws, draw, coins, attempt);
      && |events| >= 3
      && events[0] == WeightsLoadedEvent(accountId, ws)
      && events[1].CategoryPickedEvent?
      && events[1].categoryId == AttemptCategory(ws, draw, coins, attempt)
  {
    var categoryId := AttemptCategory(ws, draw, coins, attempt);
    var content := FindAvailableContent(store, accountId, categoryId, coins.ties(attempt));
    var remaining := RemoveCategory(ws, categoryId);
    RoundUnfold(store, accountId, ws, draw, coins, attempt, content, remaining);
    AttemptShape(store, accountId, ws, draw, coins, attempt);
    if content.None? && remaining != [] {
      var events: seq<Event> := AttemptEvents(store, accountId, ws, draw, coins, attempt);
      ConcatStart(events, RoundEvents(store, accountId, remaining, draw, coins, attempt + 1));
    }
  }

  /** The last of `events` names the result `r`: its content, or the exhaustion when there is none. */
  predicate ClosesWith(events: seq<Event>, accountId: AccountId, r: Option<Content>) {
    && events != []
    && (r.Some? ==> events[|events| - 1] == ContentSelectedEvent(accountId, r.value, r.value.categoryId))
    && (r.None? ==> events[|events| - 1] == ExhaustedEvent(accountId))
  }

  /** The cascade's last event names its result. */
  lemma {:induction false} RoundClosing(store: Store, accountId: AccountId, ws: seq<WeightEntry>,
                                        draw: Option<int>, coins: Coins, attempt: nat)
    requires Positive(ws) && ws != []
    ensures ClosesWith(RoundEvents(store, accountId, ws, draw, coins, attempt), accountId,
                       SelectFromWeights(store, accountId, ws, draw, coins, attempt))
    decreases |ws|
  {
    var categoryId := AttemptCategory(ws, draw, coins, attempt);
    var content := FindAvailableContent(store, accountId, categoryId, coins.ties(attempt));
    var remaining := RemoveCategory(ws, categoryId);
    RoundUnfold(store, accountId, ws, draw, coins, attempt, content, remaining);
    if content.None? && remaining != [] {
      RoundClosing(store, accountId, remaining, draw, coins, attempt + 1);
      ClosesAfter(AttemptEvents(store, accountId, ws, draw, coins, attempt),
                  RoundEvents(store, accountId, remaining, draw, coins, attempt + 1), accountId,
                  SelectFromWeights(store, accountId, remaining, draw, coins, attempt + 1));
    } else {
      AttemptShape(store, accountId, ws, draw, coins, attempt);
    }
  }

  lemma ClosesAfter(a: seq<Event>, b: seq<Event>, accountId: AccountId, r: Option<Content>)
    requires ClosesWith(b, accountId, r)
    ensures ClosesWith(a + b, accountId, r)
  {
    assert (a + b)[|a + b| - 1] == b[|b| - 1];
  }

  lemma ConcatStart<T>(a: seq<T>, b: seq<T>)
    requires |a| >= 3
    ensures |a + b| >= 3 && (a + b)[0] == a[0] && (a + b)[1] == a[1]
  {
  }

  /** The shape of one attempt's events: its opening pair and, when it ends the cascade, its last event. */
  lemma AttemptShape(store: Store, accountId: AccountId, ws: seq<WeightEntry>, draw: Option<int>, coins: Coins,
                     attempt: nat)
    requires Positive(ws) && ws != []
    ensures var categoryId := AttemptCategory(ws, draw, coins, attempt);
      var events := AttemptEvents(store, accountId, ws, draw, coins, attempt);
      var content := FindAvailableContent(store, accountId, categoryId, coins.ties(attempt));
      && |events| >= 3
      && events[0] == WeightsLoadedEvent(accountId, ws)
      && events[1].CategoryPickedEvent?
      && events[1].categoryId == categoryId
      && (content.Some? ==> events[|events| - 1] == ContentSelectedEvent(accountId, content.value, content.value.categoryId))
      && (content.None? && RemoveCategory(ws, categoryId) == [] ==> events[|events| - 1] == ExhaustedEvent(accountId))
  {
    var categoryId := AttemptCategory(ws, draw, coins, attempt);
    var content := FindAvailableContent(store, accountId, categoryId, coins.ties(attempt));
    var head := HeadEvents(accountId, ws, draw, coins, attempt);
    var outcome := OutcomeEvents(accountId, categoryId, content, RemoveCategory(ws, categoryId));
    assert |head| == 2 && |outcome| >= 1;
    assert (head + outcome)[|head + outcome| - 1] == outcome[|outcome| - 1];
  }

  /** An attempt picks once: its only category_picked event is the second. */
  lemma AttemptPicksOnce(store: Store, accountId: AccountId, ws: seq<WeightEntry>, draw: Option<int>, coins: Coins,
                         attempt: nat)
    requires Positive(ws) && ws != []
    ensures var events := AttemptEvents(store, accountId, ws, draw, coins, attempt);
      forall i :: 0 <= i < |events| && events[i].CategoryPickedEvent? ==>
        events[i].categoryId == AttemptCategory(ws, draw, coins, attempt)
  {
    var categoryId := AttemptCategory(ws, draw, coins, attempt);
    var head := HeadEvents(accountId, ws, draw, coins, attempt);
    var outcome := OutcomeEvents(accountId, categoryId, FindAvailableContent(store, accountId, categoryId, coins.ties(attempt)),
                                 RemoveCategory(ws, categoryId));
    assert forall j :: 0 <= j < |outcome| ==> !outcome[j].CategoryPickedEvent?;
    assert forall i :: |head| <= i < |head + outcome| ==> (head + outcome)[i] == outcome[i - |head|];
  }

  /** Every category_picked event among `events` names a category of `cats`. */
  predicate PicksWithin(events: seq<Event>, cats: set<CategoryId>) {
    forall i :: 0 <= i < |events| && events[i].CategoryPickedEvent? ==> events[i].categoryId in cats
  }

  lemma PicksWithinConcat(a: seq<Event>, b: seq<Event>, cats: set<CategoryId>, sub: set<CategoryId>)
    requires PicksWithin(a, cats) && PicksWithin(b, sub) && sub <= cats
    ensures PicksWithin(a + b, cats)
  {
    forall i | 0 <= i < |a + b| && (a + b)[i].CategoryPickedEvent?
      ensures (a + b)[i].categoryId in cats
    {
      if i >= |a| {
        assert (a + b)[i] == b[i - |a|];
      }
    }
  }

  /** Every category_picked of the cascade names a category of the working set it started from. */
  lemma {:induction false} RoundPicksWeighted(store: Store, accountId: AccountId, ws: seq<WeightEntry>,
                                              draw: Option<int>, coins: Coins, attempt: nat)
    requires Positive(ws) && ws != []
    ensures PicksWithin(RoundEvents(store, accountId, ws, draw, coins, attempt), Categories(ws))
    decreases |ws|
  {
    var categoryId := AttemptCategory(ws, draw, coins, attempt);
    var content := FindAvailableContent(store, accountId, categoryId, coins.ties(attempt));
    var remaining := RemoveCategory(ws, categoryId);
    RoundUnfold(store, accountId, ws, draw, coins, attempt, content, remaining);
    var events: seq<Event> := AttemptEvents(store, accountId, ws, draw, coins, attempt);
    AttemptPicksOnce(store, accountId, ws, draw, coins, attempt);
    assert PicksWithin(events, Categories(ws));
    if content.None? && remaining != [] {
      var rest: seq<Event> := RoundEvents(store, accountId, remaining, draw, coins, attempt + 1);
      RoundPicksWeighted(store, accountId, remaining, draw, coins, attempt + 1);
      RemovedCategories(ws, categoryId);
      PicksWithinConcat(events, rest, Categories(ws), Categories(remaining));
    }
  }

  /**
   * The trace of a selection: `no_weights` alone when the account has no
   * positive weight, otherwise attempts ending in the outcome event, which
   * names the selected content.
   */
  lemma SelectionOutcome(store: Store, accountId: AccountId, draw: Option<int>, coins: Coins)
    ensures var events := SelectionEvents(store, accountId, draw, coins);
      var r := SelectContent(store, accountId, draw, coins);
      && events != []
      && (WeightedCategories(store.weights, accountId) == {} <==> events == [NoWeightsEvent(accountId)])
      && (r.Some? ==> events[|events| - 1] == ContentSelectedEvent(accountId, r.value, r.value.categoryId))
      && (r.None? && WeightedCategories(store.weights, accountId) != {} ==>
            events[|events| - 1] == ExhaustedEvent(accountId))
  {
    var weights := LoadWeights(store.weights, accountId);
    LoadedCategories(store.weights, accountId);
    assert weights != [] ==> weights[0].categoryId in Categories(weights);
    if weights != [] {
      SelectionRounds(store, accountId, draw, coins);
    }
  }

  /** With weights, the selection's events are the cascade's, which opens with weights_loaded and ends with the result. */
  lemma SelectionRounds(store: Store, accountId: AccountId, draw: Option<int>, coins: Coins)
    requires LoadWeights(store.weights, accountId) != []
    ensures SelectionEvents(store, accountId, draw, coins) != [NoWeightsEvent(accountId)]
    ensures ClosesWith(SelectionEvents(store, accountId, draw, coins), accountId, SelectContent(store, accountId, draw, coins))
  {
    var weights := LoadWeights(store.weights, accountId);
    RoundOpening(store, accountId, weights, draw, coins, 0);
    RoundClosing(store, accountId, weights, draw, coins, 0);
  }

  /** How the trace grows, in terms of the entries written. */
  lemma TraceStep(t0: seq<LogEntry>, done: seq<LogEntry>, before: seq<LogEntry>, step: seq<LogEntry>, after: seq<LogEntry>)
    requires before == t0 + done
    requires after == before + step
    ensures after == t0 + (done + step)
  {
  }

  /** The opening of an attempt: report the working set, pick a category, report the pick. */
  method TraceHead(logger: AutopostLogger, accountId: AccountId, ws: seq<WeightEntry>,
                   draw: Option<int>, coins: Coins, attempt: nat) returns (categoryId: CategoryId)
    requires logger.Valid() && Positive(ws) && ws != []
    modifies logger
    ensures logger.Valid()
    ensures categoryId == AttemptCategory(ws, draw, coins, attempt)
    ensures logger.trace == old(logger.trace) + Stamped(logger.requestId, HeadEvents(accountId, ws, draw, coins, attempt))
  {
    var totalWeight := TotalWeight(ws);
    var random := ResolveDraw(draw, totalWeight, coins.draws(attempt));
    ghost var t0 := logger.trace;
    logger.WeightsLoaded(accountId, ws);
    ghost var t1 := logger.trace;
    categoryId := PickCategoryByCumulativeWeight(ws, draw, coins.draws(attempt));
    var cumulative := CumulativeAtPick(ws, random);
    logger.CategoryPicked(categoryId, random, totalWeight, cumulative);
    var loaded := WeightsLoadedEvent(accountId, ws);
    var picked := CategoryPickedEvent(categoryId, random, totalWeight, cumulative);
    assert HeadEvents(accountId, ws, draw, coins, attempt) == [loaded, picked];
    assert StampEvent(logger.requestId, loaded) == Stamp(logger.requestId, "weights_loaded", WeightsLoadedContext(accountId, ws));
    assert StampEvent(logger.requestId, picked) ==
      Stamp(logger.requestId, "category_picked", CategoryPickedContext(categoryId, random, totalWeight, cumulative));
    StampedTwo(logger.requestId, loaded, picked);
    AppendTwo(t0, t1, logger.trace, StampEvent(logger.requestId, loaded), StampEvent(logger.requestId, picked));
  }

  /** Two appends in a row add both entries. */
  lemma AppendTwo(t0: seq<LogEntry>, t1: seq<LogEntry>, t2: seq<LogEntry>, a: LogEntry, b: LogEntry)
    requires t1 == t0 + [a] && t2 == t1 + [b]
    ensures t2 == t0 + [a, b]
  {
  }

  /** The end of an attempt: report the hit, or the miss and, if nothing is left, the exhaustion. */
  method TraceOutcome(logger: AutopostLogger, accountId: AccountId, categoryId: CategoryId,
                      content: Option<Content>, remaining: seq<WeightEntry>)
    requires logger.Valid()
    modifies logger
    ensures logger.Valid()
    ensures logger.trace == old(logger.trace) + Stamped(logger.requestId, OutcomeEvents(accountId, categoryId, content, remaining))
  {
    if content.Some? {
      logger.ContentSelected(accountId, content.value, categoryId);
      StampedOne(logger.requestId, ContentSelectedEvent(accountId, content.value, categoryId));
      return;
    }
    ghost var t0 := logger.trace;
    logger.CategorySkipped(accountId, categoryId, |remaining|);
    ghost var t1 := logger.trace;
    var skipped := CategorySkippedEvent(accountId, categoryId, |remaining|);
    if remaining == [] {
      logger.AllCategoriesExhausted(accountId);
      var exhausted := ExhaustedEvent(accountId);
      StampedTwo(logger.requestId, skipped, exhausted);
      AppendTwo(t0, t1, logger.trace, StampEvent(logger.requestId, skipped), StampEvent(logger.requestId, exhausted));
    } else {
      StampedOne(logger.requestId, skipped);
    }
  }

  /** One attempt of the traced selector: pick, look for content, report. */
  method TraceAttempt(logger: AutopostLogger, store: Store, accountId: AccountId, ws: seq<WeightEntry>,
                      draw: Option<int>, coins: Coins, attempt: nat)
    returns (content: Option<Content>, remaining: seq<WeightEntry>)
    requires logger.Valid() && Positive(ws) && ws != []
    modifies logger
    ensures logger.Valid()
    ensures content == FindAvailableContent(store, accountId, AttemptCategory(ws, draw, coins, attempt), coins.ties(attempt))
    ensures remaining == RemoveCategory(ws, AttemptCategory(ws, draw, coins, attempt))
    ensures logger.trace == old(logger.trace) + Stamped(logger.requestId, AttemptEvents(store, accountId, ws, draw, coins, attempt))
  {
    var categoryId := TraceHead(logger, accountId, ws, draw, coins, attempt);
    ghost var middle := logger.trace;
    content := FindAvailableContent(store, accountId, categoryId, coins.ties(attempt));
    remaining := RemoveCategory(ws, categoryId);
    TraceOutcome(logger, accountId, categoryId, content, remaining);
    ghost var head := HeadEvents(accountId, ws, draw, coins, attempt);
    ghost var outcome := OutcomeEvents(accountId, categoryId, content, remaining);
    StampedAppend(logger.requestId, head, outcome);
    TraceStep(old(logger.trace), Stamped(logger.requestId, head), middle, Stamped(logger.requestId, outcome), logger.trace);
  }

  /**
   * selectFromWeights with its trace: the recursive cascade from a working
   * set on. Returns what the untraced cascade returns and appends the
   * events of this attempt and of those after it.
   */
  method TraceRounds(logger: AutopostLogger, store: Store, accountId: AccountId, ws: seq<WeightEntry>,
                     draw: Option<int>, coins: Coins, attempt: nat) returns (r: Option<Content>)
    requires logger.Valid() && Positive(ws) && ws != []
    modifies logger
    ensures logger.Valid()
    ensures r == SelectFromWeights(store, accountId, ws, draw, coins, attempt)
    ensures logger.trace ==
      old(logger.trace) + Stamped(logger.requestId, RoundEvents(store, accountId, ws, draw, coins, attempt))
    decreases |ws|
  {
    ghost var events := AttemptEvents(store, accountId, ws, draw, coins, attempt);
    var content, remaining := TraceAttempt(logger, store, accountId, ws, draw, coins, attempt);
    RoundUnfold(store, accountId, ws, draw, coins, attempt, content, remaining);
    if content.Some? || remaining == [] {
      return content;
    }
    ghost var middle := logger.trace;
    r := TraceRounds(logger, store, accountId, remaining, draw, coins, attempt + 1);
    ghost var rest := RoundEvents(store, accountId, remaining, draw, coins, attempt + 1);
    StampedAppend(logger.requestId, events, rest);
    TraceStep(old(logger.trace), Stamped(logger.requestId, events), middle, Stamped(logger.requestId, rest), logger.trace);
  }

  /**
   * selectContent with its trace: returns what the untraced selection
   * returns and appends the selection's events, stamped with the logger's
   * request id, to the logger's trace.
   */
  method SelectContentTraced(logger: AutopostLogger, store: Store, accountId: AccountId,
                             draw: Option<int>, coins: Coins) returns (r: Option<Content>)
    requires logger.Valid()
    modifies logger
    ensures logger.Valid()
    ensures r == SelectContent(store, accountId, draw, coins)
    ensures logger.trace == old(logger.trace) + Stamped(logger.requestId, SelectionEvents(store, accountId, draw, coins))
  {
    var weights := LoadWeights(store.weights, accountId);
    if weights == [] {
      logger.NoWeights(accountId);
      return None;
    }
    r := TraceRounds(logger, store, accountId, weights, draw, coins, 0);
  }
}
