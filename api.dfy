/**
 * The request handling of the listings API (`listings_api` in `server/src/web/api.rs`)
 * that does not touch the database: paging defaults, the job and duty id lists read from
 * both query forms, the guards that answer with an empty page, the cache key, the job bits
 * of the database query, the in-process search filter and the manual pagination.
 *
 * Overflowing `usize` or `u32` arithmetic is a panic (`None`). The `WORLDS` table and the
 * keys of `JOBS` are parameters, and so is Unicode lower-casing.
 */
module Api {
  import opened Wrappers
  import opened Text
  import Listing
  import GameTables

  const UsizeLimit: nat := 0x1_0000_0000_0000_0000
  const U32Limit: nat := 0x1_0000_0000
  const U16Limit: nat := 0x1_0000

  type Usize = x: nat | x < 0x1_0000_0000_0000_0000

  datatype WorldInfo = WorldInfo(name: string, dataCenter: string)

  /**
   * The query parameters, as text; `jobsArray` and `dutyArray` are the `jobs[]` and
   * `duty[]` forms.
   */
  datatype Query = Query(
    page: Option<Usize>,
    perPage: Option<Usize>,
    category: Option<string>,
    world: Option<string>,
    search: Option<string>,
    datacenter: Option<string>,
    jobs: Option<string>,
    jobsArray: seq<string>,
    duty: Option<string>,
    dutyArray: seq<string>)

  /** What the handler goes on to query with, once every guard has passed. */
  datatype Request = Request(
    page: Usize,
    perPage: Usize,
    category: Option<RequestedCategory>,
    jobs: seq<nat>,
    duties: seq<nat>,
    cacheKey: string)

  /** An early answer (an empty page with `total` 0), or the normalised request. */
  datatype Outcome = EmptyPage(page: Usize, perPage: Usize) | Proceed(request: Request)

  function Min(a: nat, b: nat): nat {
    if a <= b then a else b
  }

  // ---------------------------------------------------------------------------------------
  // Paging parameters
  // ---------------------------------------------------------------------------------------

  /** `page` defaults to 1. */
  function PageOf(q: Query): (page: Usize)
    ensures q.page.None? ==> page == 1
    ensures q.page.Some? ==> page == q.page.value
  {
    q.page.GetOr(1)
  }

  /** `per_page` defaults to 20 and is capped at 100. */
  function PerPageOf(q: Query): (perPage: Usize)
    ensures perPage <= 100
    ensures q.perPage.None? ==> perPage == 20
    ensures q.perPage.Some? ==> perPage == Min(q.perPage.value, 100)
  {
    Min(q.perPage.GetOr(20), 100)
  }

  // ---------------------------------------------------------------------------------------
  // Unsigned integers as Rust's `from_str` reads them
  // ---------------------------------------------------------------------------------------

  /** The digits after an optional leading `+`. */
  function Unsigned(s: string): string {
    if |s| > 0 && s[0] == '+' then s[1..] else s
  }

  /**
   * `str::parse` for an unsigned type below `limit`: an optional `+`, then one or more
   * ASCII digits whose value fits.
   */
  function ParseUnsigned(s: string, limit: nat): (r: Option<nat>)
    ensures r.Some? <==> |Unsigned(s)| > 0 && AllDigits(Unsigned(s)) && DecimalValue(Unsigned(s)) < limit
    ensures r.Some? ==> r.value == DecimalValue(Unsigned(s)) && r.value < limit
  {
    var digits := Unsigned(s);
    if |digits| > 0 && AllDigits(digits) && DecimalValue(digits) < limit then Some(DecimalValue(digits)) else None
  }

  /** Every value below the limit parses back from its decimal text, with or without a `+`. */
  lemma ParseRendered(n: nat, limit: nat)
    requires n < limit
    ensures ParseUnsigned(NatToString(n), limit) == Some(n)
    ensures ParseUnsigned("+" + NatToString(n), limit) == Some(n)
  {
    assert ("+" + NatToString(n))[1..] == NatToString(n);
  }

  /** A sign of `-` is refused, and so is a value at the limit. */
  lemma ParseRefuses(n: nat, limit: nat)
    ensures ParseUnsigned("-" + NatToString(n), limit).None?
    ensures n >= limit ==> ParseUnsigned(NatToString(n), limit).None?
  {
    assert ("-" + NatToString(n))[0] == '-';
  }

  // ---------------------------------------------------------------------------------------
  // The category parameter
  // ---------------------------------------------------------------------------------------

  /** The categories the `category` parameter can request. */
  datatype RequestedCategory =
    | NoneCategory | DutyRoulette | Dungeon | Guildhest | Trial | Raid | HighEndDuty | PvP
    | GoldSaucer | Fate | TreasureHunt | TheHunt | GatheringForays | DeepDungeon
    | FieldOperation | VariantAndCriterionDungeon

  /** The parameter text that requests each category. */
  function CategoryName(c: RequestedCategory): string {
    match c
    case NoneCategory => "None"
    case DutyRoulette => "DutyRoulette"
    case Dungeon => "Dungeons"
    case Guildhest => "Guildhests"
    case Trial => "Trials"
    case Raid => "Raids"
    case HighEndDuty => "HighEndDuty"
    case PvP => "Pvp"
    case GoldSaucer => "GoldSaucer"
    case Fate => "Fates"
    case TreasureHunt => "TreasureHunt"
    case TheHunt => "TheHunt"
    case GatheringForays => "GatheringForays"
    case DeepDungeon => "DeepDungeons"
    case FieldOperation => "FieldOperations"
    case VariantAndCriterionDungeon => "V&C Dungeon Finder"
  }

  /**
   * The category a parameter text requests: exactly the sixteen names above, compared as
   * they are; any other text requests nothing.
   */
  function CategoryOfName(name: string): (c: Option<RequestedCategory>)
    ensures c.Some? ==> CategoryName(c.value) == name
    ensures (exists k :: CategoryName(k) == name) ==> c.Some?
  {
    if name == "None" then Some(NoneCategory)
    else if name == "DutyRoulette" then Some(DutyRoulette)
    else if name == "Dungeons" then Some(Dungeon)
    else if name == "Guildhests" then Some(Guildhest)
    else if name == "Trials" then Some(Trial)
    else if name == "Raids" then Some(Raid)
    else if name == "HighEndDuty" then Some(HighEndDuty)
    else if name == "Pvp" then Some(PvP)
    else if name == "GoldSaucer" then Some(GoldSaucer)
    else if name == "Fates" then Some(Fate)
    else if name == "TreasureHunt" then Some(TreasureHunt)
    else if name == "TheHunt" then Some(TheHunt)
    else if name == "GatheringForays" then Some(GatheringForays)
    else if name == "DeepDungeons" then Some(DeepDungeon)
    else if name == "FieldOperations" then Some(FieldOperation)
    else if name == "V&C Dungeon Finder" then Some(VariantAndCriterionDungeon)
    else None
  }

  /** Each category's name requests that category. */
  lemma CategoryNameRoundTrip(c: RequestedCategory)
    ensures CategoryOfName(CategoryName(c)) == Some(c)
  {
  }

  /** The requested category of a query, when its text names one. */
  function CategoryOf(q: Query): Option<RequestedCategory> {
    if q.category.Some? then CategoryOfName(q.category.value) else None
  }

  // ---------------------------------------------------------------------------------------
  // Job and duty id lists
  // ---------------------------------------------------------------------------------------

  /** The largest key of `JOBS` (given as its list of keys), or 0 when it has none. */
  function MaxKey(keys: seq<nat>): (m: nat)
    ensures forall i :: 0 <= i < |keys| ==> keys[i] <= m
    ensures |keys| > 0 ==> m in keys
    ensures |keys| == 0 ==> m == 0
  {
    if |keys| == 0 then 0
    else
      var rest := MaxKey(keys[..|keys| - 1]);
      var k := keys[|keys| - 1];
      assert forall i :: 0 <= i < |keys| - 1 ==> keys[..|keys| - 1][i] == keys[i];
      if k >= rest then k else rest
  }

  /** The items of both forms, the comma-separated text first, then the `[]` form. */
  function IdItems(text: Option<string>, listed: seq<string>): seq<string> {
    (if text.Some? then Split(text.value, ',') else []) + listed
  }

  /** An item's id: the trimmed text parsed below `limit`. */
  function ParsedItem(item: string, limit: nat): Option<nat> {
    ParseUnsigned(Trim(item), limit)
  }

  /** A `jobs` item: the trimmed text as a `u32`. */
  function JobItem(item: string): Option<nat> {
    ParsedItem(item, U32Limit)
  }

  /** A `duty` item: the trimmed text as a `u16`. */
  function DutyItem(item: string): Option<nat> {
    ParsedItem(item, U16Limit)
  }

  /** Whether an id passes the range check: job ids may not exceed the largest `JOBS` key. */
  predicate Admitted(id: nat, ceiling: Option<nat>) {
    ceiling.None? || id <= ceiling.value
  }

  /** The ids of the items that parse and pass the range check, in item order. */
  function ParsedIds(items: seq<string>, parse: string -> Option<nat>, ceiling: Option<nat>): seq<nat> {
    if |items| == 0 then []
    else
      var prev := ParsedIds(items[..|items| - 1], parse, ceiling);
      var parsed := parse(items[|items| - 1]);
      if parsed.Some? && Admitted(parsed.value, ceiling) then prev + [parsed.value] else prev
  }

  /** Every listed id was parsed from some item and passed the range check. */
  lemma {:induction false} ParsedIdsSound(items: seq<string>, parse: string -> Option<nat>, ceiling: Option<nat>, id: nat) returns (i: nat)
    requires id in ParsedIds(items, parse, ceiling)
    ensures i < |items| && parse(items[i]) == Some(id) && Admitted(id, ceiling)
  {
    var init, last := items[..|items| - 1], items[|items| - 1];
    var prev := ParsedIds(init, parse, ceiling);
    if id in prev {
      i := ParsedIdsSound(init, parse, ceiling, id);
      assert init[i] == items[i];
    } else {
      i := |items| - 1;
    }
  }

  /** Every item that parses to an id within range contributes it. */
  lemma {:induction false} ParsedIdsComplete(items: seq<string>, parse: string -> Option<nat>, ceiling: Option<nat>, i: nat)
    requires i < |items| && parse(items[i]).Some? && Admitted(parse(items[i]).value, ceiling)
    ensures parse(items[i]).value in ParsedIds(items, parse, ceiling)
  {
    var init := items[..|items| - 1];
    if i < |init| {
      assert init[i] == items[i];
      ParsedIdsComplete(init, parse, ceiling, i);
    }
  }

  lemma ParsedIdsSnoc(items: seq<string>, item: string, parse: string -> Option<nat>, ceiling: Option<nat>)
    ensures var parsed := parse(item);
      ParsedIds(items + [item], parse, ceiling) ==
        if parsed.Some? && Admitted(parsed.value, ceiling) then ParsedIds(items, parse, ceiling) + [parsed.value]
        else ParsedIds(items, parse, ceiling)
  {
    assert (items + [item])[..|items|] == items;
  }

  /** One form's loop: parse each item in turn and push the ids that pass the range check. */
  method PushIds(ids: seq<nat>, items: seq<string>, ghost done: seq<string>, parse: string -> Option<nat>, ceiling: Option<nat>)
    returns (r: seq<nat>)
    requires ids == ParsedIds(done, parse, ceiling)
    ensures r == ParsedIds(done + items, parse, ceiling)
  {
    r := ids;
    assert done + items[..0] == done;
    for i := 0 to |items|
      invariant r == ParsedIds(done + items[..i], parse, ceiling)
    {
      assert done + items[..i + 1] == (done + items[..i]) + [items[i]];
      ParsedIdsSnoc(done + items[..i], items[i], parse, ceiling);
      var parsed := parse(items[i]);
      if parsed.Some? && Admitted(parsed.value, ceiling) {
        r := r + [parsed.value];
      }
    }
    assert items[..|items|] == items;
  }

  /** The loops over the comma-separated text and then the `[]` form. */
  method CollectIds(text: Option<string>, listed: seq<string>, parse: string -> Option<nat>, ceiling: Option<nat>) returns (ids: seq<nat>)
    ensures ids == ParsedIds(IdItems(text, listed), parse, ceiling)
  {
    var parts: seq<string> := if text.Some? then Split(text.value, ',') else [];
    assert [] + parts == parts;
    ids := PushIds([], parts, [], parse, ceiling);
    if |listed| > 0 {
      ids := PushIds(ids, listed, parts, parse, ceiling);
    } else {
      assert parts + listed == parts;
    }
  }

  // ---------------------------------------------------------------------------------------
  // sort_unstable + dedup
  // ---------------------------------------------------------------------------------------

  predicate Increasing(s: seq<nat>) {
    forall i, j :: 0 <= i < j < |s| ==> s[i] < s[j]
  }

  /** Inserts `x` into an increasing sequence unless it is already there. */
  function InsertUnique(x: nat, s: seq<nat>): (r: seq<nat>)
    requires Increasing(s)
    ensures Increasing(r)
    ensures forall y :: y in r <==> y in s || y == x
  {
    if |s| == 0 then [x]
    else if x < s[0] then [x] + s
    else if x == s[0] then s
    else
      var rest := InsertUnique(x, s[1..]);
      assert forall y :: y in s <==> y == s[0] || y in s[1..];
      assert forall j :: 0 <= j < |rest| ==> rest[j] > s[0] by {
        forall j | 0 <= j < |rest|
          ensures rest[j] > s[0]
        {
          assert rest[j] in rest;
          if rest[j] != x {
            var k :| 0 <= k < |s[1..]| && s[1..][k] == rest[j];
            assert s[k + 1] == rest[j];
          }
        }
      }
      [s[0]] + rest
  }

  /** The ids in ascending order, each once: what sorting and then deduplicating leaves. */
  function SortDedup(s: seq<nat>): (r: seq<nat>)
    ensures Increasing(r)
    ensures forall y :: y in r <==> y in s
  {
    if |s| == 0 then []
    else
      assert forall y :: y in s <==> y == s[0] || y in s[1..];
      InsertUnique(s[0], SortDedup(s[1..]))
  }

  lemma HeadIn(s: seq<nat>)
    requires |s| > 0
    ensures s[0] in s
  {
  }

  /** Two increasing sequences with the same elements are the same sequence. */
  lemma {:induction false} IncreasingUnique(a: seq<nat>, b: seq<nat>)
    requires Increasing(a) && Increasing(b)
    requires forall x :: x in a <==> x in b
    ensures a == b
  {
    if |a| == 0 || |b| == 0 {
      if |a| > 0 {
        HeadIn(a);
        assert false;
      }
      if |b| > 0 {
        HeadIn(b);
        assert false;
      }
    } else {
      assert a[0] in b;
      assert b[0] in a;
      assert a[0] == b[0];
      forall x
        ensures x in a[1..] <==> x in b[1..]
      {
        assert x in a <==> x == a[0] || x in a[1..];
        assert x in b <==> x == b[0] || x in b[1..];
      }
      IncreasingUnique(a[1..], b[1..]);
      assert a == [a[0]] + a[1..] && b == [b[0]] + b[1..];
    }
  }

  /** Permuted or repeated ids give the same normalised list. */
  lemma SortDedupCanonical(s: seq<nat>, t: seq<nat>)
    requires forall x :: x in s <==> x in t
    ensures SortDedup(s) == SortDedup(t)
  {
    IncreasingUnique(SortDedup(s), SortDedup(t));
  }

  // ---------------------------------------------------------------------------------------
  // Cache key and guards
  // ---------------------------------------------------------------------------------------

  /** The ids in decimal, joined by `_`. */
  function JoinIds(ids: seq<nat>): string {
    Join(seq(|ids|, i requires 0 <= i < |ids| => NatToString(ids[i])), "_")
  }

  /** `listings_p{page}_pp{per_page}_c{category}_w{world}_s{search}_dc{datacenter}_js{jobs}_du{duties}`. */
  function CacheKey(page: Usize, perPage: Usize, category: Option<string>, world: Option<string>,
                    search: Option<string>, datacenter: Option<string>, jobs: seq<nat>, duties: seq<nat>): string
  {
    "listings_p" + NatToString(page) + "_pp" + NatToString(perPage)
    + "_c" + category.GetOr("") + "_w" + world.GetOr("") + "_s" + search.GetOr("")
    + "_dc" + datacenter.GetOr("") + "_js" + JoinIds(jobs) + "_du" + JoinIds(duties)
  }

  predicate KnownWorld(name: string, worlds: map<nat, WorldInfo>) {
    exists id :: id in worlds && worlds[id].name == name
  }

  predicate KnownDataCentre(name: string, worlds: map<nat, WorldInfo>) {
    exists id :: id in worlds && worlds[id].dataCenter == name
  }

  function JobIds(q: Query, jobKeys: seq<nat>): seq<nat> {
    ParsedIds(IdItems(q.jobs, q.jobsArray), JobItem, Some(MaxKey(jobKeys)))
  }

  function DutyIds(q: Query): seq<nat> {
    ParsedIds(IdItems(q.duty, q.dutyArray), DutyItem, None)
  }

  /**
   * The category's part of the cache key: the text of the category's Party Finder category
   * (`pf_category().as_str()`, given as `categoryText`), or nothing.
   */
  function CategoryKeyText(c: Option<RequestedCategory>, categoryText: RequestedCategory -> string): Option<string> {
    if c.Some? then Some(categoryText(c.value)) else None
  }

  /**
   * The parameter handling up to the cache lookup: an unknown world, an unknown data
   * centre, or a job or duty parameter without a single valid id answers with an empty
   * page; otherwise the category name is looked up, the id lists are sorted and
   * deduplicated and the cache key is built.
   */
  function Prepared(q: Query, jobKeys: seq<nat>, worlds: map<nat, WorldInfo>, categoryText: RequestedCategory -> string): Outcome {
    var page, perPage := PageOf(q), PerPageOf(q);
    if q.world.Some? && !KnownWorld(q.world.value, worlds) then EmptyPage(page, perPage)
    else if q.datacenter.Some? && !KnownDataCentre(q.datacenter.value, worlds) then EmptyPage(page, perPage)
    else if (q.jobs.Some? || |q.jobsArray| > 0) && |JobIds(q, jobKeys)| == 0 then EmptyPage(page, perPage)
    else if (q.duty.Some? || |q.dutyArray| > 0) && |DutyIds(q)| == 0 then EmptyPage(page, perPage)
    else
      var category := CategoryOf(q);
      var jobs, duties := SortDedup(JobIds(q, jobKeys)), SortDedup(DutyIds(q));
      Proceed(Request(page, perPage, category, jobs, duties,
        CacheKey(page, perPage, CategoryKeyText(category, categoryText), q.world, q.search, q.datacenter, jobs, duties)))
  }

  /** `Prepared` as the handler computes it: the two id loops, then the guards and the key. */
  method Prepare(q: Query, jobKeys: seq<nat>, worlds: map<nat, WorldInfo>, categoryText: RequestedCategory -> string)
    returns (o: Outcome)
    ensures o == Prepared(q, jobKeys, worlds, categoryText)
  {
    var page, perPage := PageOf(q), PerPageOf(q);
    var category := if q.category.Some? then CategoryOfName(q.category.value) else None;
    if q.world.Some? && !KnownWorld(q.world.value, worlds) {
      return EmptyPage(page, perPage);
    }
    if q.datacenter.Some? && !KnownDataCentre(q.datacenter.value, worlds) {
      return EmptyPage(page, perPage);
    }
    var jobList := CollectIds(q.jobs, q.jobsArray, JobItem, Some(MaxKey(jobKeys)));
    assert jobList == JobIds(q, jobKeys);
    if (q.jobs.Some? || |q.jobsArray| > 0) && |jobList| == 0 {
      return EmptyPage(page, perPage);
    }
    var dutyList := CollectIds(q.duty, q.dutyArray, DutyItem, None);
    assert dutyList == DutyIds(q);
    if (q.duty.Some? || |q.dutyArray| > 0) && |dutyList| == 0 {
      return EmptyPage(page, perPage);
    }
    jobList := SortDedup(jobList);
    dutyList := SortDedup(dutyList);
    var categoryKey := if category.Some? then Some(categoryText(category.value)) else None;
    var key := CacheKey(page, perPage, categoryKey, q.world, q.search, q.datacenter, jobList, dutyList);
    return Proceed(Request(page, perPage, category, jobList, dutyList, key));
  }

  /**
   * A request that passes the guards carries ascending, duplicate-free id lists; every job
   * id is a 32-bit value no larger than the largest `JOBS` key and every duty id fits 16 bits.
   */
  lemma PreparedIds(q: Query, jobKeys: seq<nat>, worlds: map<nat, WorldInfo>, categoryText: RequestedCategory -> string)
    requires Prepared(q, jobKeys, worlds, categoryText).Proceed?
    ensures Increasing(Prepared(q, jobKeys, worlds, categoryText).request.jobs)
    ensures Increasing(Prepared(q, jobKeys, worlds, categoryText).request.duties)
    ensures forall j :: j in Prepared(q, jobKeys, worlds, categoryText).request.jobs ==> j < U32Limit && j <= MaxKey(jobKeys)
    ensures forall d :: d in Prepared(q, jobKeys, worlds, categoryText).request.duties ==> d < U16Limit
  {
    var r := Prepared(q, jobKeys, worlds, categoryText).request;
    forall j | j in r.jobs
      ensures j < U32Limit && j <= MaxKey(jobKeys)
    {
      var _ := ParsedIdsSound(IdItems(q.jobs, q.jobsArray), JobItem, Some(MaxKey(jobKeys)), j);
    }
    forall d | d in r.duties
      ensures d < U16Limit
    {
      var _ := ParsedIdsSound(IdItems(q.duty, q.dutyArray), DutyItem, None, d);
    }
  }

  /** Items with the same members give ids with the same members, whatever their order. */
  lemma ParsedIdsSameItems(a: seq<string>, b: seq<string>, parse: string -> Option<nat>, ceiling: Option<nat>)
    requires forall x :: x in a <==> x in b
    ensures forall id :: id in ParsedIds(a, parse, ceiling) <==> id in ParsedIds(b, parse, ceiling)
  {
    forall id | id in ParsedIds(a, parse, ceiling)
      ensures id in ParsedIds(b, parse, ceiling)
    {
      var i := ParsedIdsSound(a, parse, ceiling, id);
      assert a[i] in a;
      var k :| 0 <= k < |b| && b[k] == a[i];
      ParsedIdsComplete(b, parse, ceiling, k);
    }
    forall id | id in ParsedIds(b, parse, ceiling)
      ensures id in ParsedIds(a, parse, ceiling)
    {
      var i := ParsedIdsSound(b, parse, ceiling, id);
      assert b[i] in b;
      var k :| 0 <= k < |a| && a[k] == b[i];
      ParsedIdsComplete(a, parse, ceiling, k);
    }
  }

  /** Id lists parsed from items with the same members normalise to the same list. */
  lemma SameItemsSameIds(a: seq<string>, b: seq<string>, parse: string -> Option<nat>, ceiling: Option<nat>)
    requires forall x :: x in a <==> x in b
    ensures |ParsedIds(a, parse, ceiling)| == 0 <==> |ParsedIds(b, parse, ceiling)| == 0
    ensures SortDedup(ParsedIds(a, parse, ceiling)) == SortDedup(ParsedIds(b, parse, ceiling))
  {
    ParsedIdsSameItems(a, b, parse, ceiling);
    var ia, ib := ParsedIds(a, parse, ceiling), ParsedIds(b, parse, ceiling);
    if |ia| > 0 {
      assert ia[0] in ib;
    }
    if |ib| > 0 {
      assert ib[0] in ia;
    }
    SortDedupCanonical(ia, ib);
  }

  /** Whether a query gives the job parameter in either form. */
  predicate JobsGiven(q: Query) {
    q.jobs.Some? || |q.jobsArray| > 0
  }

  /** Whether a query gives the duty parameter in either form. */
  predicate DutiesGiven(q: Query) {
    q.duty.Some? || |q.dutyArray| > 0
  }

  /**
   * Two queries that differ only in how their job and duty ids are written (reordered,
   * repeated, moved between the comma-separated and the `[]` form) are handled alike, the
   * cache key included: such queries share a cache entry.
   */
  lemma PreparedIgnoresIdOrder(q: Query, q2: Query, jobKeys: seq<nat>, worlds: map<nat, WorldInfo>,
                               categoryText: RequestedCategory -> string)
    requires q2 == q.(jobs := q2.jobs, jobsArray := q2.jobsArray, duty := q2.duty, dutyArray := q2.dutyArray)
    requires JobsGiven(q) <==> JobsGiven(q2)
    requires DutiesGiven(q) <==> DutiesGiven(q2)
    requires forall x :: x in IdItems(q.jobs, q.jobsArray) <==> x in IdItems(q2.jobs, q2.jobsArray)
    requires forall x :: x in IdItems(q.duty, q.dutyArray) <==> x in IdItems(q2.duty, q2.dutyArray)
    ensures Prepared(q2, jobKeys, worlds, categoryText) == Prepared(q, jobKeys, worlds, categoryText)
  {
    SameItemsSameIds(IdItems(q.jobs, q.jobsArray), IdItems(q2.jobs, q2.jobsArray), JobItem, Some(MaxKey(jobKeys)));
    SameItemsSameIds(IdItems(q.duty, q.dutyArray), IdItems(q2.duty, q2.dutyArray), DutyItem, None);
    var page, perPage := PageOf(q), PerPageOf(q);
    assert PageOf(q2) == page && PerPageOf(q2) == perPage && CategoryOf(q2) == CategoryOf(q);
    assert q2.world == q.world && q2.datacenter == q.datacenter && q2.search == q.search;
    var jobsEmpty := JobsGiven(q) && |JobIds(q, jobKeys)| == 0;
    var dutiesEmpty := DutiesGiven(q) && |DutyIds(q)| == 0;
    assert jobsEmpty == (JobsGiven(q2) && |JobIds(q2, jobKeys)| == 0);
    assert dutiesEmpty == (DutiesGiven(q2) && |DutyIds(q2)| == 0);
    if q.world.Some? && !KnownWorld(q.world.value, worlds) {
    } else if q.datacenter.Some? && !KnownDataCentre(q.datacenter.value, worlds) {
    } else if jobsEmpty || dutiesEmpty {
    } else {
      assert SortDedup(JobIds(q2, jobKeys)) == SortDedup(JobIds(q, jobKeys));
      assert SortDedup(DutyIds(q2)) == SortDedup(DutyIds(q));
    }
  }

  /** Reordering or repeating the `jobs[]` items alone changes nothing. */
  lemma PreparedIgnoresJobOrder(q: Query, items: seq<string>, jobKeys: seq<nat>, worlds: map<nat, WorldInfo>,
                                categoryText: RequestedCategory -> string)
    requires |items| > 0 <==> |q.jobsArray| > 0
    requires forall x :: x in items <==> x in q.jobsArray
    ensures Prepared(q.(jobsArray := items), jobKeys, worlds, categoryText) == Prepared(q, jobKeys, worlds, categoryText)
  {
    var q2 := q.(jobsArray := items);
    assert forall x :: x in IdItems(q.jobs, q.jobsArray) <==> x in IdItems(q2.jobs, q2.jobsArray);
    PreparedIgnoresIdOrder(q, q2, jobKeys, worlds, categoryText);
  }

  /**
   * The comma-separated form and the `[]` form of the same items are handled alike, for
   * jobs and for duties.
   */
  lemma PreparedEitherForm(q: Query, items: seq<string>, jobKeys: seq<nat>, worlds: map<nat, WorldInfo>,
                           categoryText: RequestedCategory -> string)
    requires |items| > 0
    requires forall k :: 0 <= k < |items| ==> ',' !in items[k]
    ensures Prepared(q.(jobs := Some(Join(items, ",")), jobsArray := []), jobKeys, worlds, categoryText)
         == Prepared(q.(jobs := None, jobsArray := items), jobKeys, worlds, categoryText)
    ensures Prepared(q.(duty := Some(Join(items, ",")), dutyArray := []), jobKeys, worlds, categoryText)
         == Prepared(q.(duty := None, dutyArray := items), jobKeys, worlds, categoryText)
  {
    SplitJoin(items, ',');
    assert IdItems(Some(Join(items, ",")), []) == items == IdItems(None, items);
    var q1, q2 := q.(jobs := Some(Join(items, ",")), jobsArray := []), q.(jobs := None, jobsArray := items);
    PreparedIgnoresIdOrder(q1, q2, jobKeys, worlds, categoryText);
    var d1, d2 := q.(duty := Some(Join(items, ",")), dutyArray := []), q.(duty := None, dutyArray := items);
    PreparedIgnoresIdOrder(d1, d2, jobKeys, worlds, categoryText);
  }

  /**
   * A `category` text other than the sixteen names neither filters nor enters the cache key:
   * the query is handled as one without the parameter.
   */
  lemma UnknownCategoryIgnored(q: Query, name: string, jobKeys: seq<nat>, worlds: map<nat, WorldInfo>,
                               categoryText: RequestedCategory -> string)
    requires CategoryOfName(name).None?
    ensures Prepared(q.(category := Some(name)), jobKeys, worlds, categoryText)
         == Prepared(q.(category := None), jobKeys, worlds, categoryText)
  {
  }

  /** A known name requests its category, which the request carries and the key shows. */
  lemma KnownCategoryRequested(q: Query, c: RequestedCategory, jobKeys: seq<nat>, worlds: map<nat, WorldInfo>,
                               categoryText: RequestedCategory -> string)
    requires q.category == Some(CategoryName(c))
    requires Prepared(q, jobKeys, worlds, categoryText).Proceed?
    ensures Prepared(q, jobKeys, worlds, categoryText).request.category == Some(c)
    ensures Prepared(q, jobKeys, worlds, categoryText).request.cacheKey
         == CacheKey(PageOf(q), PerPageOf(q), Some(categoryText(c)), q.world, q.search, q.datacenter,
                     Prepared(q, jobKeys, worlds, categoryText).request.jobs,
                     Prepared(q, jobKeys, worlds, categoryText).request.duties)
  {
    CategoryNameRoundTrip(c);
  }

  /** Names are compared exactly: the singular, or another letter case, requests nothing. */
  lemma CategoryNamesExact()
    ensures CategoryOfName("Dungeons") == Some(Dungeon)
    ensures CategoryOfName("Dungeon").None?
    ensures CategoryOfName("dungeons").None?
    ensures CategoryOfName("PvP").None?
  {
  }

  // ---------------------------------------------------------------------------------------
  // Job bits
  // ---------------------------------------------------------------------------------------

  /**
   * The database query's job conditions, one `1u32 << job_id` per listed job: a shift by
   * 32 or more overflows, which panics.
   */
  function JobBits(jobs: seq<nat>): (r: Option<seq<bv32>>)
    ensures r.Some? <==> forall i :: 0 <= i < |jobs| ==> jobs[i] < 32
    ensures r.Some? ==> |r.value| == |jobs|
  {
    if forall i :: 0 <= i < |jobs| ==> jobs[i] < 32
    then Some(seq(|jobs|, i requires 0 <= i < |jobs| && jobs[i] < 32 => Bit(jobs[i])))
    else None
  }

  function Bit(job: nat): bv32
    requires job < 32
  {
    1 << job
  }

  /** The text `33` parses to the one job id 33 when `JOBS` holds it. */
  lemma JobText33(jobKeys: seq<nat>)
    requires 33 in jobKeys
    ensures ParsedIds(IdItems(Some("33"), []), JobItem, Some(MaxKey(jobKeys))) == [33]
  {
    SplitJoin(["33"], ',');
    assert Split("33", ',') == ["33"];
    assert Trim("33") == "33";
    assert JobItem("33") == Some(33);
    assert IdItems(Some("33"), []) == ["33"];
    assert ["33"][..0] == [];
  }

  lemma JobIdsOf33(q: Query, jobKeys: seq<nat>)
    requires 33 in jobKeys
    requires q.jobs == Some("33") && q.jobsArray == []
    ensures JobIds(q, jobKeys) == [33]
  {
    JobText33(jobKeys);
  }

  lemma PreparedWithJobs(q: Query, jobKeys: seq<nat>, worlds: map<nat, WorldInfo>, categoryText: RequestedCategory -> string, jobs: seq<nat>)
    requires JobIds(q, jobKeys) == jobs && |jobs| > 0
    requires q.world.None? && q.datacenter.None? && q.duty.None? && q.dutyArray == []
    ensures Prepared(q, jobKeys, worlds, categoryText).Proceed?
    ensures Prepared(q, jobKeys, worlds, categoryText).request.jobs == SortDedup(jobs)
  {
    assert DutyIds(q) == [];
  }

  lemma JobIdOverflowsShift(q: Query, jobKeys: seq<nat>, worlds: map<nat, WorldInfo>, categoryText: RequestedCategory -> string)
    requires 33 in jobKeys
    requires q.jobs == Some("33") && q.jobsArray == []
    requires q.world.None? && q.datacenter.None? && q.duty.None? && q.dutyArray == []
    ensures Prepared(q, jobKeys, worlds, categoryText).Proceed?
    ensures Prepared(q, jobKeys, worlds, categoryText).request.jobs == [33]
    ensures JobBits(Prepared(q, jobKeys, worlds, categoryText).request.jobs).None?
  {
    JobIdsOf33(q, jobKeys);
    PreparedWithJobs(q, jobKeys, worlds, categoryText, [33]);
    assert SortDedup([33]) == [33];
  }

  // ---------------------------------------------------------------------------------------
  // The search filter
  // ---------------------------------------------------------------------------------------

  /** A stored listing as the filter sees it: its flattened name and description, and its slots. */
  datatype Candidate = Candidate(name: string, description: string, slots: seq<bv32>)

  /** Some slot accepts the bit of some listed job. */
  predicate AcceptsAny(slots: seq<bv32>, jobs: seq<nat>) {
    exists s, j :: 0 <= s < |slots| && 0 <= j < |jobs| && jobs[j] < 32 && Listing.HasFlag(slots[s], jobs[j])
  }

  /**
   * The database query's job filter: an `$or` over the listed jobs, each asking for a slot
   * whose `accepting` mask has all of the bit `1u32 << job_id` set (`$elemMatch` with
   * `$bitsAllSet`). The query is only built when every shift succeeds (`JobBits`).
   */
  predicate DatabaseJobMatch(slots: seq<bv32>, jobs: seq<nat>) {
    exists s, j :: 0 <= s < |slots| && 0 <= j < |jobs| && jobs[j] < 32 && slots[s] & (1 << jobs[j]) == 1 << jobs[j]
  }

  /** A mask has all of a single bit set exactly when it has any of it. */
  lemma SingleBitAllSet(mask: bv32, b: bv32)
    requires b != 0 && b & (b - 1) == 0
    ensures (mask & b == b) <==> (mask & b != 0)
  {
  }

  /** `1 << job` is a single bit. */
  lemma ShiftIsSingleBit(job: nat)
    requires job < 32
    ensures (1 as bv32) << job != 0 && ((1 as bv32) << job) & (((1 as bv32) << job) - 1) == 0
  {
  }

  /**
   * The database's filter keeps exactly the listings with a slot that has the bit of a
   * listed job: it is `AcceptsAny`, the test the handler repeats after a text search.
   */
  lemma DatabaseJobMatchAcceptsAny(slots: seq<bv32>, jobs: seq<nat>)
    ensures DatabaseJobMatch(slots, jobs) <==> AcceptsAny(slots, jobs)
  {
    forall s, j | 0 <= s < |slots| && 0 <= j < |jobs| && jobs[j] < 32
      ensures (slots[s] & (1 << jobs[j]) == 1 << jobs[j]) <==> Listing.HasFlag(slots[s], jobs[j])
    {
      ShiftIsSingleBit(jobs[j]);
      SingleBitAllSet(slots[s], 1 << jobs[j]);
    }
  }

  /** The nested loops with the `has_job` flag, leaving both loops at the first match. */
  method HasJob(slots: seq<bv32>, jobs: seq<nat>) returns (hasJob: bool)
    requires forall i :: 0 <= i < |jobs| ==> jobs[i] < 32
    ensures hasJob <==> AcceptsAny(slots, jobs)
  {
    hasJob := false;
    for s := 0 to |slots|
      invariant !hasJob ==> forall s', j :: 0 <= s' < s && 0 <= j < |jobs| ==> !Listing.HasFlag(slots[s'], jobs[j])
      invariant hasJob ==> AcceptsAny(slots, jobs)
    {
      for j := 0 to |jobs|
        invariant !hasJob ==> forall j' :: 0 <= j' < j ==> !Listing.HasFlag(slots[s], jobs[j'])
        invariant hasJob ==> AcceptsAny(slots, jobs)
      {
        if slots[s] & (1 << jobs[j]) != 0 {
          hasJob := true;
          break;
        }
      }
      if hasJob {
        break;
      }
    }
  }

  /** The lower-cased search term occurs in the lower-cased name or description. */
  predicate TextMatches(c: Candidate, term: string, lower: string -> string) {
    Contains(lower(c.name), lower(term)) || Contains(lower(c.description), lower(term))
  }

  /** Whether a listing survives the filter: the text matches, and some slot takes a listed job. */
  predicate Kept(c: Candidate, search: Option<string>, jobs: seq<nat>, lower: string -> string) {
    (search.None? || TextMatches(c, search.value, lower)) && (|jobs| == 0 || AcceptsAny(c.slots, jobs))
  }

  function Filtered(cs: seq<Candidate>, search: Option<string>, jobs: seq<nat>, lower: string -> string): seq<Candidate> {
    if |cs| == 0 then []
    else
      var prev := Filtered(cs[..|cs| - 1], search, jobs, lower);
      if Kept(cs[|cs| - 1], search, jobs, lower) then prev + [cs[|cs| - 1]] else prev
  }

  /** The survivors are exactly the listings that pass, in their original order. */
  lemma {:induction false} FilteredMembers(cs: seq<Candidate>, search: Option<string>, jobs: seq<nat>, lower: string -> string)
    ensures forall c :: c in Filtered(cs, search, jobs, lower) <==> c in cs && Kept(c, search, jobs, lower)
  {
    if |cs| > 0 {
      FilteredMembers(cs[..|cs| - 1], search, jobs, lower);
      assert forall c :: c in cs <==> c in cs[..|cs| - 1] || c == cs[|cs| - 1] by {
        assert cs == cs[..|cs| - 1] + [cs[|cs| - 1]];
      }
    }
  }

  lemma {:induction false} FilteredAppend(a: seq<Candidate>, b: seq<Candidate>, search: Option<string>, jobs: seq<nat>, lower: string -> string)
    ensures Filtered(a + b, search, jobs, lower) == Filtered(a, search, jobs, lower) + Filtered(b, search, jobs, lower)
  {
    if |b| == 0 {
      assert a + b == a;
    } else {
      assert (a + b)[..|a + b| - 1] == a + b[..|b| - 1];
      FilteredAppend(a, b[..|b| - 1], search, jobs, lower);
    }
  }

  /**
   * With neither a search term nor jobs, the filter keeps everything (a branch the handler
   * never reaches, see `FilterCandidates`).
   */
  lemma {:induction false} FilteredKeepsAll(cs: seq<Candidate>, lower: string -> string)
    ensures Filtered(cs, None, [], lower) == cs
  {
    if |cs| > 0 {
      FilteredKeepsAll(cs[..|cs| - 1], lower);
      assert cs == cs[..|cs| - 1] + [cs[|cs| - 1]];
    }
  }

  /**
   * The filter as written: with a search term, the text test and then the job test; without
   * one, the job test alone, or every listing when no jobs are listed either. The handler
   * only reaches this filter with a search term: without one it has already answered from
   * the database's own page, whose job filter is `DatabaseJobMatch`. So the branch without
   * a search term, and the case of `FilteredKeepsAll`, are written code that never runs.
   */
  method FilterCandidates(containers: seq<Candidate>, search: Option<string>, jobs: seq<nat>, lower: string -> string)
    returns (filtered: seq<Candidate>)
    requires forall i :: 0 <= i < |jobs| ==> jobs[i] < 32
    ensures filtered == Filtered(containers, search, jobs, lower)
  {
    if search.None? && |jobs| == 0 {
      FilteredKeepsAll(containers, lower);
      return containers;
    }
    filtered := [];
    for k := 0 to |containers|
      invariant filtered == Filtered(containers[..k], search, jobs, lower)
    {
      assert containers[..k + 1][..k] == containers[..k];
      var c := containers[k];
      if search.Some? {
        if Contains(lower(c.name), lower(search.value)) || Contains(lower(c.description), lower(search.value)) {
          if |jobs| > 0 {
            var hasJob := HasJob(c.slots, jobs);
            if hasJob {
              filtered := filtered + [c];
            }
          } else {
            filtered := filtered + [c];
          }
        }
      } else {
        var hasJob := HasJob(c.slots, jobs);
        if hasJob {
          filtered := filtered + [c];
        }
      }
    }
    assert containers[..|containers|] == containers;
  }

  // ---------------------------------------------------------------------------------------
  // What the job test evidently means
  // ---------------------------------------------------------------------------------------

  /**
   * A slot takes a job id when its decoded classes and jobs contain the class or job that
   * `JOBS` lists under the id; an id `JOBS` does not know matches nothing.
   */
  predicate AcceptsJobIds(slots: seq<bv32>, ids: seq<nat>, jobs: map<nat, Listing.ClassJob>) {
    exists s, i :: 0 <= s < |slots| && 0 <= i < |ids| && ids[i] in jobs && jobs[ids[i]] in Listing.ClassJobsOf(slots[s])
  }

  /** The corrected job test: the same nested loops, comparing classes and jobs instead of bit positions. */
  method HasJobCorrected(slots: seq<bv32>, ids: seq<nat>, jobs: map<nat, Listing.ClassJob>) returns (hasJob: bool)
    ensures hasJob <==> AcceptsJobIds(slots, ids, jobs)
  {
    hasJob := false;
    for s := 0 to |slots|
      invariant !hasJob ==> forall s', i :: 0 <= s' < s && 0 <= i < |ids| && ids[i] in jobs ==> jobs[ids[i]] !in Listing.ClassJobsOf(slots[s'])
      invariant hasJob ==> AcceptsJobIds(slots, ids, jobs)
    {
      var accepted := Listing.ClassJobs(slots[s]);
      for i := 0 to |ids|
        invariant !hasJob ==> forall i' :: 0 <= i' < i && ids[i'] in jobs ==> jobs[ids[i']] !in accepted
        invariant hasJob ==> AcceptsJobIds(slots, ids, jobs)
      {
        if ids[i] in jobs && jobs[ids[i]] in accepted {
          hasJob := true;
          break;
        }
      }
      if hasJob {
        break;
      }
    }
  }

  /** No class or job among bits `m + 1` to `n`: the decoded list stops growing at `m`. */
  lemma {:induction false} JobsUpToUnchanged(flags: bv32, m: nat, n: nat)
    requires m <= n <= |Listing.FlagJobs|
    requires forall b :: m < b <= n ==> !Listing.HasFlag(flags, b)
    ensures Listing.JobsUpTo(flags, n) == Listing.JobsUpTo(flags, m)
  {
    if n > m {
      JobsUpToUnchanged(flags, m, n - 1);
    }
  }

  /** A Paladin-only slot: bit 8 alone decodes to Paladin alone. */
  lemma PaladinOnlyJobs()
    ensures Listing.ClassJobsOf(256) == [GameTables.CombatJob("Paladin")]
  {
    var f: bv32 := 256;
    Listing.JobsUpToNone(f, 7);
    assert Listing.HasFlag(f, 8);
    assert Listing.JobsUpTo(f, 8) == [Listing.FlagJobs[7]];
    JobsUpToUnchanged(f, 8, |Listing.FlagJobs|);
  }

  /** A Ninja-only slot: bit 19 alone decodes to Ninja alone. */
  lemma NinjaOnlyJobs()
    ensures Listing.ClassJobsOf(524288) == [GameTables.CombatJob("Ninja")]
  {
    var f: bv32 := 524288;
    Listing.JobsUpToNone(f, 18);
    assert Listing.HasFlag(f, 19);
    assert Listing.JobsUpTo(f, 19) == [Listing.FlagJobs[18]];
    JobsUpToUnchanged(f, 19, |Listing.FlagJobs|);
  }

  /**
   * With `JOBS` listing Paladin under id 19, the test as written treats the id as a bit
   * position: a Paladin-only slot (bit 8) does not match and a Ninja-only slot (bit 19)
   * does. The corrected test does the opposite.
   */
  lemma JobIdIsNotBit(jobs: map<nat, Listing.ClassJob>)
    requires 19 in jobs && jobs[19] == GameTables.CombatJob("Paladin")
    ensures !AcceptsAny([256], [19]) && AcceptsJobIds([256], [19], jobs)
    ensures AcceptsAny([524288], [19]) && !AcceptsJobIds([524288], [19], jobs)
  {
    PaladinOnlyJobs();
    NinjaOnlyJobs();
    assert [19][0] < 32 && Listing.HasFlag([524288][0], [19][0]);
    assert !Listing.HasFlag(256, 19);
    assert jobs[[19][0]] in Listing.ClassJobsOf([256][0]);
  }

  // ---------------------------------------------------------------------------------------
  // Pagination
  // ---------------------------------------------------------------------------------------

  /**
   * `(total + per_page - 1) / per_page`: the number of pages, rounded up. A `per_page` of 0
   * divides by zero (or, with no listings, underflows first): a panic.
   */
  function TotalPages(total: nat, perPage: nat): (r: Option<nat>)
    ensures r.None? <==> perPage == 0
    ensures r.Some? ==> r.value * perPage >= total && r.value * perPage < total + perPage
  {
    if perPage == 0 then None
    else
      var q := (total + perPage - 1) / perPage;
      assert q * perPage + (total + perPage - 1) % perPage == total + perPage - 1;
      Some(q)
  }

  /** The items of page `page` (from 1), `per_page` at a time. */
  function PageSlice<T>(items: seq<T>, page: nat, perPage: nat): seq<T>
    requires page >= 1
  {
    var start := (page - 1) * perPage;
    if start < |items| then items[start..Min(start + perPage, |items|)] else []
  }

  lemma MulMono(a: nat, b: nat, c: nat)
    requires a <= b
    ensures a * c <= b * c
  {
  }

  /** A page after the last one starts at or past the end. */
  lemma PastLastPage(total: nat, page: nat, perPage: nat)
    requires perPage >= 1 && page > TotalPages(total, perPage).value
    ensures (page - 1) * perPage >= total
  {
    MulMono(TotalPages(total, perPage).value, page - 1, perPage);
  }

  /** A page up to the last one starts before the end. */
  lemma WithinLastPage(total: nat, page: nat, perPage: nat)
    requires perPage >= 1 && 1 <= page <= TotalPages(total, perPage).value
    ensures (page - 1) * perPage < total
  {
    var tp := TotalPages(total, perPage).value;
    MulMono(page - 1, tp - 1, perPage);
    assert (tp - 1) * perPage == tp * perPage - perPage;
  }

  /** The start the handler slices from: reset to 0 when at or past the end. */
  function SliceStart(total: nat, start: nat): nat {
    if start >= total then 0 else start
  }

  /** The handler's two cases agree with `PageSlice`. */
  lemma PaginateCases<T>(items: seq<T>, page: nat, perPage: nat)
    requires page >= 1 && perPage >= 1
    ensures page > TotalPages(|items|, perPage).value && |items| > 0 ==> PageSlice(items, page, perPage) == []
    ensures !(page > TotalPages(|items|, perPage).value && |items| > 0) ==>
      var start := SliceStart(|items|, (page - 1) * perPage);
      PageSlice(items, page, perPage) == items[start..start + Min(perPage, |items| - start)]
  {
    var total := |items|;
    if page > TotalPages(total, perPage).value {
      PastLastPage(total, page, perPage);
    } else if total > 0 {
      WithinLastPage(total, page, perPage);
    }
  }

  /**
   * The manual pagination: a page past the last one is empty; otherwise the slice from
   * `(page - 1) * per_page`, reset to 0 when at or past the end, of at most `per_page`
   * items. A `page` of 0, a `per_page` of 0, and a start beyond `usize` panic.
   */
  method Paginate<T>(items: seq<T>, page: Usize, perPage: Usize) returns (r: Option<seq<T>>)
    ensures r.None? <==> page == 0 || perPage == 0 || (page - 1) * perPage >= UsizeLimit
    ensures r.Some? ==> r.value == PageSlice(items, page, perPage)
  {
    var total := |items|;
    if perPage == 0 || page == 0 {
      return None;
    }
    var totalPages := (total + perPage - 1) / perPage;
    assert totalPages == TotalPages(total, perPage).value;
    var start := (page - 1) * perPage;
    if start >= UsizeLimit {
      return None;
    }
    PaginateCases(items, page, perPage);
    if page > totalPages && total > 0 {
      return Some([]);
    }
    start := SliceStart(total, start);
    var itemsLeft := total - start;
    var end := start + Min(perPage, itemsLeft);
    return Some(items[start..end]);
  }

  /** Item `i` is on page `i / per_page + 1`, at position `i % per_page`. */
  lemma PageHolds<T>(items: seq<T>, perPage: nat, i: nat)
    requires perPage >= 1 && i < |items|
    ensures i % perPage < |PageSlice(items, i / perPage + 1, perPage)|
    ensures PageSlice(items, i / perPage + 1, perPage)[i % perPage] == items[i]
  {
    assert (i / perPage) * perPage + i % perPage == i;
  }

  /** The pages up to `TotalPages` are not empty, and those after it are. */
  lemma PagesBeyondLastEmpty<T>(items: seq<T>, perPage: nat, page: nat)
    requires perPage >= 1 && page >= 1
    ensures page <= TotalPages(|items|, perPage).value <==> |PageSlice(items, page, perPage)| > 0
  {
    if page <= TotalPages(|items|, perPage).value {
      WithinLastPage(|items|, page, perPage);
    } else {
      PastLastPage(|items|, page, perPage);
    }
  }
}
