/**
 * The autopost trace logger: one instance fixes a request id when it is
 * constructed and stamps it on every structured event it writes. The log
 * channel is the instance's `trace`, to which each event appends one entry.
 */
module AutopostLoggerService {
  import opened Wrappers
  import opened SocialMediaContent
  import opened AutopostService

  /** A value of a log context. */
  datatype Value = IntV(i: int) | StrV(s: string) | WeightsV(entries: seq<WeightEntry>)

  /** A PHP associative array of context, as its key/value pairs in order. */
  type Context = seq<(string, Value)>

  /** One line of the autopost channel: the message and its context. */
  datatype LogEntry = LogEntry(message: string, context: Context)

  const NoWeightsReason := "No category weights configured for account"
  const SkippedReason := "No available content in category"
  const ExhaustedReason := "All weighted categories have been exhausted with no available content"

  /** The value an associative array holds for a key: a later pair for the same key wins. */
  function Lookup(ctx: Context, key: string): Option<Value> {
    if ctx == [] then None
    else
      var later := Lookup(ctx[1..], key);
      if later.Some? then later
      else if ctx[0].0 == key then Some(ctx[0].1)
      else None
  }

  /** `[...$a, ...$b]`: the keys of `b` override those of `a`. */
  lemma {:induction false} LookupAppend(a: Context, b: Context, key: string)
    ensures Lookup(a + b, key) == if Lookup(b, key).Some? then Lookup(b, key) else Lookup(a, key)
  {
    if a == [] {
      assert a + b == b;
    } else {
      assert (a + b)[0] == a[0];
      assert (a + b)[1..] == a[1..] + b;
      LookupAppend(a[1..], b, key);
    }
  }

  /**
   * The entry `log` writes: the event name as message and the context
   * behind a leading request_id.
   */
  function Stamp(requestId: string, event: string, context: Context): LogEntry {
    LogEntry(event, [("request_id", StrV(requestId))] + context)
  }

  /**
   * What a stamped entry says: its message is the event; its request_id is
   * the logger's unless the context brings its own; every key of the
   * context keeps its value, and no key but request_id is added.
   */
  lemma StampKeys(requestId: string, event: string, context: Context)
    ensures Stamp(requestId, event, context).message == event
    ensures Lookup(context, "request_id").None? ==>
      Lookup(Stamp(requestId, event, context).context, "request_id") == Some(StrV(requestId))
    ensures forall key :: Lookup(context, key).Some? ==>
      Lookup(Stamp(requestId, event, context).context, key) == Lookup(context, key)
    ensures forall key :: key != "request_id" ==>
      Lookup(Stamp(requestId, event, context).context, key) == Lookup(context, key)
  {
    forall key
      ensures Lookup(Stamp(requestId, event, context).context, key) ==
        if Lookup(context, key).Some? then Lookup(context, key) else Lookup([("request_id", StrV(requestId))], key)
    {
      LookupAppend([("request_id", StrV(requestId))], context, key);
    }
  }

  /** The value for a key in a two-pair context. */
  lemma LookupTwo(p0: (string, Value), p1: (string, Value))
    ensures forall key :: (Lookup([p0, p1], key) ==
      if p1.0 == key then Some(p1.1) else if p0.0 == key then Some(p0.1) else None)
  {
    forall key
      ensures Lookup([p0, p1], key) ==
        (if p1.0 == key then Some(p1.1) else if p0.0 == key then Some(p0.1) else None)
    {
      assert [p0, p1][1..] == [p1];
      assert [p1][1..] == [];
      assert Lookup([p1], key) == if p1.0 == key then Some(p1.1) else None;
    }
  }

  /** The value for a key in a four-pair context. */
  lemma LookupFour(p0: (string, Value), p1: (string, Value), p2: (string, Value), p3: (string, Value))
    ensures forall key :: (Lookup([p0, p1, p2, p3], key) ==
      if p3.0 == key then Some(p3.1) else if p2.0 == key then Some(p2.1)
      else if p1.0 == key then Some(p1.1) else if p0.0 == key then Some(p0.1) else None)
  {
    LookupTwo(p2, p3);
    forall key
      ensures Lookup([p0, p1, p2, p3], key) ==
        (if p3.0 == key then Some(p3.1) else if p2.0 == key then Some(p2.1)
         else if p1.0 == key then Some(p1.1) else if p0.0 == key then Some(p0.1) else None)
    {
      assert [p0, p1, p2, p3][1..] == [p1, p2, p3];
      assert [p1, p2, p3][1..] == [p2, p3];
      assert Lookup([p1, p2, p3], key) ==
        if Lookup([p2, p3], key).Some? then Lookup([p2, p3], key) else if p1.0 == key then Some(p1.1) else None;
    }
  }

  /* The context each event method passes to `log`. */

  function NoWeightsContext(accountId: AccountId): (ctx: Context)
    ensures Lookup(ctx, "request_id").None?
    ensures Lookup(ctx, "account_id") == Some(IntV(accountId))
    ensures Lookup(ctx, "reason") == Some(StrV(NoWeightsReason))
  {
    LookupTwo(("account_id", IntV(accountId)), ("reason", StrV(NoWeightsReason)));
    [("account_id", IntV(accountId)), ("reason", StrV(NoWeightsReason))]
  }

  function WeightsLoadedContext(accountId: AccountId, weights: seq<WeightEntry>): (ctx: Context)
    ensures Lookup(ctx, "request_id").None?
    ensures Lookup(ctx, "account_id") == Some(IntV(accountId))
    ensures Lookup(ctx, "weights") == Some(WeightsV(weights))
    ensures Lookup(ctx, "total_weight") == Some(IntV(TotalWeight(weights)))
    ensures Lookup(ctx, "category_count") == Some(IntV(|weights|))
  {
    LookupFour(("account_id", IntV(accountId)), ("weights", WeightsV(weights)), ("total_weight", IntV(TotalWeight(weights))), ("category_count", IntV(|weights|)));
    [("account_id", IntV(accountId)), ("weights", WeightsV(weights)),
     ("total_weight", IntV(TotalWeight(weights))), ("category_count", IntV(|weights|))]
  }

  function CategoryPickedContext(categoryId: CategoryId, randomValue: int, totalWeight: int, cumulativeAtPick: int)
    : (ctx: Context)
    ensures Lookup(ctx, "request_id").None?
    ensures Lookup(ctx, "category_id") == Some(IntV(categoryId))
    ensures Lookup(ctx, "random_value") == Some(IntV(randomValue))
    ensures Lookup(ctx, "total_weight") == Some(IntV(totalWeight))
    ensures Lookup(ctx, "cumulative_at_pick") == Some(IntV(cumulativeAtPick))
  {
    LookupFour(("category_id", IntV(categoryId)), ("random_value", IntV(randomValue)), ("total_weight", IntV(totalWeight)), ("cumulative_at_pick", IntV(cumulativeAtPick)));
    [("category_id", IntV(categoryId)), ("random_value", IntV(randomValue)),
     ("total_weight", IntV(totalWeight)), ("cumulative_at_pick", IntV(cumulativeAtPick))]
  }

  function ContentSelectedContext(accountId: AccountId, content: Content, categoryId: CategoryId): (ctx: Context)
    ensures Lookup(ctx, "request_id").None?
    ensures Lookup(ctx, "account_id") == Some(IntV(accountId))
    ensures Lookup(ctx, "content_id") == Some(IntV(content.id))
    ensures Lookup(ctx, "content_title") == Some(StrV(content.title))
    ensures Lookup(ctx, "category_id") == Some(IntV(categoryId))
  {
    LookupFour(("account_id", IntV(accountId)), ("content_id", IntV(content.id)), ("content_title", StrV(content.title)), ("category_id", IntV(categoryId)));
    [("account_id", IntV(accountId)), ("content_id", IntV(content.id)),
     ("content_title", StrV(content.title)), ("category_id", IntV(categoryId))]
  }

  function CategorySkippedContext(accountId: AccountId, categoryId: CategoryId, remainingCategories: int)
    : (ctx: Context)
    ensures Lookup(ctx, "request_id").None?
    ensures Lookup(ctx, "account_id") == Some(IntV(accountId))
    ensures Lookup(ctx, "category_id") == Some(IntV(categoryId))
    ensures Lookup(ctx, "reason") == Some(StrV(SkippedReason))
    ensures Lookup(ctx, "remaining_categories") == Some(IntV(remainingCategories))
  {
    LookupFour(("account_id", IntV(accountId)), ("category_id", IntV(categoryId)), ("reason", StrV(SkippedReason)), ("remaining_categories", IntV(remainingCategories)));
    [("account_id", IntV(accountId)), ("category_id", IntV(categoryId)),
     ("reason", StrV(SkippedReason)), ("remaining_categories", IntV(remainingCategories))]
  }

  function ExhaustedContext(accountId: AccountId): (ctx: Context)
    ensures Lookup(ctx, "request_id").None?
    ensures Lookup(ctx, "account_id") == Some(IntV(accountId))
    ensures Lookup(ctx, "reason") == Some(StrV(ExhaustedReason))
  {
    LookupTwo(("account_id", IntV(accountId)), ("reason", StrV(ExhaustedReason)));
    [("account_id", IntV(accountId)), ("reason", StrV(ExhaustedReason))]
  }

  /** The structured logger of one selection. */
  class AutopostLogger {
    const requestId: string
    var trace: seq<LogEntry>

    /** Every entry written so far carries this instance's request id. */
    ghost predicate Valid()
      reads this
    {
      forall i :: 0 <= i < |trace| ==> Lookup(trace[i].context, "request_id") == Some(StrV(requestId))
    }

    /** The request id is fixed here (the UUID generator is the caller's `requestId`). */
    constructor (requestId: string)
      ensures this.requestId == requestId
      ensures trace == []
      ensures Valid()
    {
      this.requestId := requestId;
      trace := [];
    }

    method NoWeights(accountId: AccountId)
      requires Valid()
      modifies this
      ensures Valid()
      ensures trace == old(trace) + [Stamp(requestId, "no_weights", NoWeightsContext(accountId))]
    {
      Log("no_weights", NoWeightsContext(accountId));
    }

    method WeightsLoaded(accountId: AccountId, weights: seq<WeightEntry>)
      requires Valid()
      modifies this
      ensures Valid()
      ensures trace == old(trace) + [Stamp(requestId, "weights_loaded", WeightsLoadedContext(accountId, weights))]
    {
      Log("weights_loaded", WeightsLoadedContext(accountId, weights));
    }

    method CategoryPicked(categoryId: CategoryId, randomValue: int, totalWeight: int, cumulativeAtPick: int)
      requires Valid()
      modifies this
      ensures Valid()
      ensures trace == old(trace) +
        [Stamp(requestId, "category_picked", CategoryPickedContext(categoryId, randomValue, totalWeight, cumulativeAtPick))]
    {
      Log("category_picked", CategoryPickedContext(categoryId, randomValue, totalWeight, cumulativeAtPick));
    }

    method ContentSelected(accountId: AccountId, content: Content, categoryId: CategoryId)
      requires Valid()
      modifies this
      ensures Valid()
      ensures trace == old(trace) +
        [Stamp(requestId, "content_selected", ContentSelectedContext(accountId, content, categoryId))]
    {
      Log("content_selected", ContentSelectedContext(accountId, content, categoryId));
    }

    method CategorySkipped(accountId: AccountId, categoryId: CategoryId, remainingCategories: int)
      requires Valid()
      modifies this
      ensures Valid()
      ensures trace == old(trace) +
        [Stamp(requestId, "category_skipped", CategorySkippedContext(accountId, categoryId, remainingCategories))]
    {
      Log("category_skipped", CategorySkippedContext(accountId, categoryId, remainingCategories));
    }

    method AllCategoriesExhausted(accountId: AccountId)
      requires Valid()
      modifies this
      ensures Valid()
      ensures trace == old(trace) + [Stamp(requestId, "all_categories_exhausted", ExhaustedContext(accountId))]
    {
      Log("all_categories_exhausted", ExhaustedContext(accountId));
    }

    /** `log`: appends one entry; a context without its own request_id keeps the trace stamped. */
    method Log(event: string, context: Context)
      requires Valid()
      modifies this
      ensures trace == old(trace) + [Stamp(requestId, event, context)]
      ensures Lookup(context, "request_id").None? ==> Valid()
    {
      StampKeys(requestId, event, context);
      trace := trace + [Stamp(requestId, event, context)];
    }
  }
}
