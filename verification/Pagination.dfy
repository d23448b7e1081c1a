/** Cursor pagination of the REST lists: all pages or a refusal. The endpoint is
    a parameter that may answer every request differently. */
module Pagination {
  import opened Wrappers

  const MAX_PAGES: nat := 20

  /** `key` removes duplicates and `cursor` continues the list; orders use their
      id for both, fills a dedupe key and the bill id. */
  datatype Item = Item(instId: string, key: string, cursor: string, documented: bool, payload: int)

  datatype FetchError = Transport | Mismatch | EmptyIdentity | MissingCursor | RepeatedCursor | TooManyPages

  /** The answer to the n-th request, sent with this cursor. */
  type Endpoint = (nat, Option<string>) -> Result<seq<Item>, FetchError>

  predicate IsWhitespace(c: char) {
    || '\U{0009}' <= c <= '\U{000D}' || c == ' ' || c == '\U{0085}' || c == '\U{00A0}' || c == '\U{1680}'
    || '\U{2000}' <= c <= '\U{200A}' || c == '\U{2028}' || c == '\U{2029}' || c == '\U{202F}'
    || c == '\U{205F}' || c == '\U{3000}'
  }

  /** Nothing is left after trimming. */
  predicate Blank(s: string) {
    forall i | 0 <= i < |s| :: IsWhitespace(s[i])
  }

  predicate AllMatch(page: seq<Item>, instId: string) {
    forall i | 0 <= i < |page| :: page[i].instId == instId && page[i].documented
  }

  predicate AllNamed(page: seq<Item>) {
    forall i | 0 <= i < |page| :: !Blank(page[i].key)
  }

  // ---------- what a conversation with an endpoint contains ----------

  /** The cursor sent with the n-th request when every page so far was followed. */
  function CursorAt(endpoint: Endpoint, n: nat): Option<string>
    decreases n, 0
  {
    if n == 0 then None
    else
      match PageAt(endpoint, n - 1)
      case Err(_) => None
      case Ok(page) => if page == [] then None else Some(page[|page| - 1].cursor)
  }

  function PageAt(endpoint: Endpoint, n: nat): Result<seq<Item>, FetchError>
    decreases n, 1
  {
    endpoint(n, CursorAt(endpoint, n))
  }

  function Received(endpoint: Endpoint, n: nat): seq<Item> {
    if n == 0 then []
    else Received(endpoint, n - 1) + (match PageAt(endpoint, n - 1) case Ok(page) => page case Err(_) => [])
  }

  ghost predicate GoodPage(endpoint: Endpoint, instId: string, n: nat) {
    PageAt(endpoint, n).Ok? && AllMatch(PageAt(endpoint, n).value, instId) && AllNamed(PageAt(endpoint, n).value)
  }

  /** The n-th page is full and names a usable, new cursor. */
  ghost predicate Continues(endpoint: Endpoint, instId: string, limit: nat, n: nat) {
    && GoodPage(endpoint, instId, n)
    && |PageAt(endpoint, n).value| == limit > 0
    && !Blank(CursorAt(endpoint, n + 1).value)
    && CursorAt(endpoint, n + 1) != CursorAt(endpoint, n)
  }

  ghost predicate AllContinue(endpoint: Endpoint, instId: string, limit: nat, n: nat) {
    n == 0 || (AllContinue(endpoint, instId, limit, n - 1) && Continues(endpoint, instId, limit, n - 1))
  }

  lemma {:induction false} ContinuesBelow(endpoint: Endpoint, instId: string, limit: nat, n: nat, k: nat)
    requires AllContinue(endpoint, instId, limit, n) && k < n
    ensures Continues(endpoint, instId, limit, k)
  {
    if k < n - 1 {
      ContinuesBelow(endpoint, instId, limit, n - 1, k);
    }
  }

  /** The n-th page is the first one that is not full, and all are good. */
  ghost predicate Complete(endpoint: Endpoint, instId: string, limit: nat, n: nat) {
    && GoodPage(endpoint, instId, n)
    && |PageAt(endpoint, n).value| != limit
    && AllContinue(endpoint, instId, limit, n)
  }

  /** The number of requests after which the list is complete, if that is within
      the bound. */
  ghost function Requests(endpoint: Endpoint, instId: string, limit: nat): Option<nat> {
    if exists n: nat :: n < MAX_PAGES && Complete(endpoint, instId, limit, n) then
      var n: nat :| n < MAX_PAGES && Complete(endpoint, instId, limit, n);
      Some(n + 1)
    else None
  }

  lemma CompleteOnce(endpoint: Endpoint, instId: string, limit: nat, m: nat, n: nat)
    requires Complete(endpoint, instId, limit, m) && Complete(endpoint, instId, limit, n)
    ensures m == n
  {
    if m < n {
      ContinuesBelow(endpoint, instId, limit, n, m);
    } else if n < m {
      ContinuesBelow(endpoint, instId, limit, m, n);
    }
  }

  lemma RequestsMeans(endpoint: Endpoint, instId: string, limit: nat, n: nat)
    requires Complete(endpoint, instId, limit, n)
    ensures Requests(endpoint, instId, limit) == if n < 20 then Some(n + 1) else None
  {
    forall m: nat | m < MAX_PAGES && Complete(endpoint, instId, limit, m) ensures m == n {
      CompleteOnce(endpoint, instId, limit, m, n);
    }
  }

  // ---------- first occurrences ----------

  function Keys(items: seq<Item>): set<string> {
    if items == [] then {} else Keys(items[..|items| - 1]) + {items[|items| - 1].key}
  }

  /** The items whose key was neither seen before nor occurs earlier. */
  function FirstOccurrences(seen: set<string>, items: seq<Item>): seq<Item> {
    if items == [] then []
    else
      var front, last := items[..|items| - 1], items[|items| - 1];
      FirstOccurrences(seen, front) + (if last.key in seen + Keys(front) then [] else [last])
  }

  ghost predicate DistinctKeys(items: seq<Item>) {
    forall i, j | 0 <= i < j < |items| :: items[i].key != items[j].key
  }

  lemma KeysExtend(front: seq<Item>, last: Item)
    ensures Keys(front + [last]) == Keys(front) + {last.key}
  {
    assert (front + [last])[..|front + [last]| - 1] == front;
  }

  lemma {:induction false} KeysMean(items: seq<Item>, key: string)
    ensures key in Keys(items) <==> exists i :: 0 <= i < |items| && items[i].key == key
  {
    if items != [] {
      KeysMean(items[..|items| - 1], key);
    }
  }

  lemma FirstOccurrencesStep(seen: set<string>, front: seq<Item>, last: Item)
    ensures FirstOccurrences(seen, front + [last])
         == FirstOccurrences(seen, front) + (if last.key in seen + Keys(front) then [] else [last])
  {
    assert (front + [last])[..|front + [last]| - 1] == front;
  }

  /** Duplicates never survive, and no key is lost. */
  lemma {:induction false} FirstOccurrencesAreDistinct(seen: set<string>, items: seq<Item>)
    ensures DistinctKeys(FirstOccurrences(seen, items))
    ensures Keys(FirstOccurrences(seen, items)) == Keys(items) - seen
  {
    if items != [] {
      var front, last := items[..|items| - 1], items[|items| - 1];
      assert items == front + [last];
      FirstOccurrencesAreDistinct(seen, front);
      FirstOccurrencesStep(seen, front, last);
      KeysExtend(front, last);
      DistinctStep(FirstOccurrences(seen, front), seen, Keys(front), last);
    }
  }

  lemma DistinctGrows(kept: seq<Item>, last: Item)
    requires DistinctKeys(kept) && last.key !in Keys(kept)
    ensures DistinctKeys(kept + [last]) && Keys(kept + [last]) == Keys(kept) + {last.key}
  {
    KeysExtend(kept, last);
    KeysMean(kept, last.key);
  }

  lemma DistinctStep(kept: seq<Item>, seen: set<string>, keys: set<string>, last: Item)
    requires DistinctKeys(kept) && Keys(kept) == keys - seen
    ensures var next := kept + (if last.key in seen + keys then [] else [last]);
            DistinctKeys(next) && Keys(next) == keys + {last.key} - seen
  {
    if last.key !in seen + keys {
      DistinctGrows(kept, last);
    } else {
      assert kept + [] == kept;
    }
  }

  lemma {:induction false} FirstOccurrencesCompose(seen: set<string>, a: seq<Item>, b: seq<Item>)
    ensures FirstOccurrences(seen, a + b) == FirstOccurrences(seen, a) + FirstOccurrences(seen + Keys(a), b)
  {
    if b == [] {
      assert a + b == a;
    } else {
      var front, last := b[..|b| - 1], b[|b| - 1];
      assert (a + b)[..|a + b| - 1] == a + front;
      FirstOccurrencesCompose(seen, a, front);
      KeysCompose(a, front);
    }
  }

  lemma LastIsKept(front: seq<Item>, last: Item)
    requires FirstOccurrences({}, front) == front && last.key !in Keys(front)
    ensures FirstOccurrences({}, front + [last]) == front + [last]
  {
    FirstOccurrencesStep({}, front, last);
  }

  lemma KeyIsNew(items: seq<Item>, i: nat)
    requires DistinctKeys(items) && i < |items|
    ensures items[i].key !in Keys(items[..i])
  {
    KeysMean(items[..i], items[i].key);
  }

  lemma {:induction false} DistinctPrefix(items: seq<Item>, n: nat)
    requires DistinctKeys(items) && n <= |items|
    ensures FirstOccurrences({}, items[..n]) == items[..n]
  {
    if n > 0 {
      DistinctPrefix(items, n - 1);
      KeyIsNew(items, n - 1);
      LastIsKept(items[..n - 1], items[n - 1]);
      assert items[..n] == items[..n - 1] + [items[n - 1]];
    }
  }

  lemma DistinctIsUnchanged(items: seq<Item>)
    requires DistinctKeys(items)
    ensures FirstOccurrences({}, items) == items
  {
    DistinctPrefix(items, |items|);
    assert items[..|items|] == items;
  }

  /** Position `i` holds a key that was neither seen before nor stands earlier. */
  ghost predicate IsFirst(seen: set<string>, items: seq<Item>, i: int)
    requires 0 <= i < |items|
  {
    items[i].key !in seen && forall j | 0 <= j < i :: items[j].key != items[i].key
  }

  /** `at` are, in order, exactly the positions of the first occurrences. */
  ghost predicate Picks(seen: set<string>, items: seq<Item>, kept: seq<Item>, at: seq<nat>) {
    && |at| == |kept|
    && (forall k | 0 <= k < |at| :: at[k] < |items| && kept[k] == items[at[k]] && IsFirst(seen, items, at[k]))
    && (forall k, l | 0 <= k < l < |at| :: at[k] < at[l])
    && (forall i | 0 <= i < |items| && IsFirst(seen, items, i) :: i in at)
  }

  lemma FirstStays(seen: set<string>, front: seq<Item>, last: Item, i: nat)
    requires i < |front|
    ensures IsFirst(seen, front + [last], i) <==> IsFirst(seen, front, i)
  {
    var items := front + [last];
    assert forall j | 0 <= j <= i :: items[j] == front[j];
  }

  lemma FirstAtEnd(seen: set<string>, front: seq<Item>, last: Item)
    ensures IsFirst(seen, front + [last], |front|) <==> last.key !in seen + Keys(front)
  {
    var items := front + [last];
    KeysMean(front, last.key);
    assert items[|front|] == last && forall j | 0 <= j < |front| :: items[j] == front[j];
  }

  lemma PicksStay(seen: set<string>, front: seq<Item>, last: Item, kept: seq<Item>, at: seq<nat>)
    requires Picks(seen, front, kept, at) && !IsFirst(seen, front + [last], |front|)
    ensures Picks(seen, front + [last], kept, at)
  {
    var items := front + [last];
    forall i: nat | i < |front| ensures items[i] == front[i] && (IsFirst(seen, items, i) <==> IsFirst(seen, front, i)) {
      FirstStays(seen, front, last, i);
    }
  }

  lemma PicksGrow(seen: set<string>, front: seq<Item>, last: Item, kept: seq<Item>, at: seq<nat>)
    requires Picks(seen, front, kept, at) && IsFirst(seen, front + [last], |front|)
    ensures Picks(seen, front + [last], kept + [last], at + [|front|])
  {
    var items, more := front + [last], at + [|front|];
    forall i: nat | i < |front| ensures items[i] == front[i] && (IsFirst(seen, items, i) <==> IsFirst(seen, front, i)) {
      FirstStays(seen, front, last, i);
    }
    forall i: nat | i < |items| && IsFirst(seen, items, i) ensures i in more {
      if i < |front| {
        assert i in at;
        var k :| 0 <= k < |at| && at[k] == i;
        assert more[k] == i;
      } else {
        assert more[|at|] == i;
      }
    }
  }

  /** The dedupe keeps, in order, every item whose key is new at its position, and
      no other. */
  lemma {:induction false} FirstOccurrencesPick(seen: set<string>, items: seq<Item>) returns (at: seq<nat>)
    ensures Picks(seen, items, FirstOccurrences(seen, items), at)
  {
    if items == [] {
      at := [];
    } else {
      var front, last := items[..|items| - 1], items[|items| - 1];
      var before := FirstOccurrencesPick(seen, front);
      var kept := FirstOccurrences(seen, front);
      FirstOccurrencesStep(seen, front, last);
      FirstAtEnd(seen, front, last);
      assert items == front + [last];
      if last.key in seen + Keys(front) {
        at := before;
        PicksStay(seen, front, last, kept, before);
        assert kept + [] == kept;
      } else {
        at := before + [|front|];
        PicksGrow(seen, front, last, kept, before);
      }
    }
  }

  // ---------- what is returned belongs to the request ----------

  /** Every item has the instrument asked for and a usable id. */
  ghost predicate Belongs(items: seq<Item>, instId: string) {
    forall i | 0 <= i < |items| :: items[i].instId == instId && items[i].documented && !Blank(items[i].key)
  }

  lemma {:induction false} ReceivedBelongs(endpoint: Endpoint, instId: string, limit: nat, n: nat)
    requires AllContinue(endpoint, instId, limit, n)
    ensures Belongs(Received(endpoint, n), instId)
  {
    if n > 0 {
      ReceivedBelongs(endpoint, instId, limit, n - 1);
      assert GoodPage(endpoint, instId, n - 1);
    }
  }

  lemma CompleteBelongs(endpoint: Endpoint, instId: string, limit: nat)
    requires Requests(endpoint, instId, limit).Some?
    ensures Belongs(Received(endpoint, Requests(endpoint, instId, limit).value), instId)
  {
    var n: nat :| n < MAX_PAGES && Complete(endpoint, instId, limit, n);
    RequestsMeans(endpoint, instId, limit, n);
    ReceivedBelongs(endpoint, instId, limit, n);
    assert GoodPage(endpoint, instId, n);
  }

  lemma KeptBelongs(items: seq<Item>, instId: string)
    requires Belongs(items, instId)
    ensures Belongs(FirstOccurrences({}, items), instId)
  {
    var at := FirstOccurrencesPick({}, items);
  }

  // ---------- the loops ----------

  /** The list and the keys collected so far. */
  datatype Found = Found(items: seq<Item>, keys: set<string>)

  function GatherItem(soFar: Found, item: Item): Found {
    if item.key in soFar.keys then soFar else Found(soFar.items + [item], soFar.keys + {item.key})
  }

  /** A list and its keys after more items were gathered into them. */
  function Gathered(soFar: Found, more: seq<Item>): Found {
    if more == [] then soFar
    else GatherItem(Gathered(soFar, more[..|more| - 1]), more[|more| - 1])
  }

  lemma GatherOneMore(soFar: Found, front: seq<Item>, item: Item)
    ensures Gathered(soFar, front + [item]) == GatherItem(Gathered(soFar, front), item)
  {
    assert (front + [item])[..|front + [item]| - 1] == front;
  }

  /** Gathering keeps exactly the first occurrences of keys not seen before. */
  lemma {:induction false} GatheredMeans(items: seq<Item>, seen: set<string>, more: seq<Item>)
    ensures Gathered(Found(items, seen), more) == Found(items + FirstOccurrences(seen, more), seen + Keys(more))
  {
    if more != [] {
      var front := more[..|more| - 1];
      GatheredMeans(items, seen, front);
      AppendAssociates(items, FirstOccurrences(seen, front), [more[|more| - 1]]);
      UnionAssociates(seen, Keys(front), {more[|more| - 1].key});
    } else {
      EmptyUnits(items, seen);
    }
  }

  lemma {:induction false} GatheredCompose(soFar: Found, a: seq<Item>, b: seq<Item>)
    ensures Gathered(Gathered(soFar, a), b) == Gathered(soFar, a + b)
  {
    if b == [] {
      assert a + b == a;
    } else {
      GatheredCompose(soFar, a, b[..|b| - 1]);
      assert (a + b)[..|a + b| - 1] == a + b[..|b| - 1];
    }
  }

  /** What a finished conversation makes of the list and the keys so far. */
  function Collection(endpoint: Endpoint, n: nat, soFar: Found): Found {
    Gathered(soFar, Received(endpoint, n))
  }

  method AppendPage(page: seq<Item>, items: seq<Item>, seen: set<string>)
    returns (result: Result<(), FetchError>, newItems: seq<Item>, newSeen: set<string>)
    ensures result == if AllNamed(page) then Ok(()) else Err(EmptyIdentity)
    ensures result.Ok? ==> Found(newItems, newSeen) == Gathered(Found(items, seen), page)
  {
    newItems, newSeen := items, seen;
    for i := 0 to |page|
      invariant forall k | 0 <= k < i :: !Blank(page[k].key)
      invariant Found(newItems, newSeen) == Gathered(Found(items, seen), page[..i])
    {
      GatherOneMore(Found(items, seen), page[..i], page[i]);
      assert page[..i + 1] == page[..i] + [page[i]];
      if Blank(page[i].key) {
        return Err(EmptyIdentity), newItems, newSeen;
      }
      if page[i].key !in newSeen {
        newSeen := newSeen + {page[i].key};
        newItems := newItems + [page[i]];
      }
    }
    assert page[..|page|] == page;
    result := Ok(());
  }

  /** What one page asks the loop to do next. */
  datatype PageStep = Refuse(error: FetchError) | Finish | Follow(cursor: string)

  function Judge(page: seq<Item>, instId: string, limit: nat, after: Option<string>): PageStep {
    if !AllMatch(page, instId) then Refuse(Mismatch)
    else if page == [] then Finish
    else if !AllNamed(page) then Refuse(EmptyIdentity)
    else if |page| != limit then Finish
    else
      var cursor := page[|page| - 1].cursor;
      if Blank(cursor) then Refuse(MissingCursor)
      else if after == Some(cursor) then Refuse(RepeatedCursor)
      else Follow(cursor)
  }

  lemma RefusedHere(endpoint: Endpoint, instId: string, limit: nat, n: nat)
    requires AllContinue(endpoint, instId, limit, n) && limit > 0
    requires PageAt(endpoint, n).Ok? ==> Judge(PageAt(endpoint, n).value, instId, limit, CursorAt(endpoint, n)).Refuse?
    ensures Requests(endpoint, instId, limit) == None
    ensures !Continues(endpoint, instId, limit, n)
  {
    assert !Continues(endpoint, instId, limit, n);
    forall m: nat | m < MAX_PAGES ensures !Complete(endpoint, instId, limit, m) {
      if m < n {
        ContinuesBelow(endpoint, instId, limit, n, m);
      } else if n < m && Complete(endpoint, instId, limit, m) {
        ContinuesBelow(endpoint, instId, limit, m, n);
      }
    }
  }

  lemma FollowedHere(endpoint: Endpoint, instId: string, limit: nat, n: nat, page: seq<Item>)
    requires AllContinue(endpoint, instId, limit, n) && PageAt(endpoint, n) == Ok(page)
    requires Judge(page, instId, limit, CursorAt(endpoint, n)).Follow?
    ensures AllContinue(endpoint, instId, limit, n + 1)
    ensures CursorAt(endpoint, n + 1) == Some(Judge(page, instId, limit, CursorAt(endpoint, n)).cursor)
  {
    NextCursor(endpoint, n, page);
    assert Continues(endpoint, instId, limit, n);
  }

  lemma StopsHere(endpoint: Endpoint, instId: string, limit: nat, n: nat)
    requires n < MAX_PAGES && !Continues(endpoint, instId, limit, n)
    ensures !AllContinue(endpoint, instId, limit, MAX_PAGES)
  {
    if AllContinue(endpoint, instId, limit, MAX_PAGES) {
      ContinuesBelow(endpoint, instId, limit, MAX_PAGES, n);
    }
  }

  lemma FinishedHere(endpoint: Endpoint, instId: string, limit: nat, n: nat, page: seq<Item>)
    requires AllContinue(endpoint, instId, limit, n) && PageAt(endpoint, n) == Ok(page) && limit > 0
    requires Judge(page, instId, limit, CursorAt(endpoint, n)).Finish?
    ensures Complete(endpoint, instId, limit, n)
    ensures !Continues(endpoint, instId, limit, n)
  {
  }

  /** Checks one page and collects it. */
  method TakePage(
    page: seq<Item>, instId: string, limit: nat, after: Option<string>, items: seq<Item>, seen: set<string>)
    returns (step: PageStep, newItems: seq<Item>, newSeen: set<string>)
    ensures step == Judge(page, instId, limit, after)
    ensures !step.Refuse? ==> Found(newItems, newSeen) == Gathered(Found(items, seen), page)
  {
    newItems, newSeen := items, seen;
    if !AllMatch(page, instId) {
      return Refuse(Mismatch), newItems, newSeen;
    }
    if page == [] {
      return Finish, newItems, newSeen;
    }
    var nextAfter := if |page| == limit then Some(page[|page| - 1].cursor) else None;
    var named;
    named, newItems, newSeen := AppendPage(page, newItems, newSeen);
    if named.Err? {
      return Refuse(named.error), newItems, newSeen;
    }
    if nextAfter == None {
      return Finish, newItems, newSeen;
    }
    if Blank(nextAfter.value) {
      return Refuse(MissingCursor), newItems, newSeen;
    }
    if after == nextAfter {
      return Refuse(RepeatedCursor), newItems, newSeen;
    }
    step := Follow(nextAfter.value);
  }

  lemma NeverEnds(endpoint: Endpoint, instId: string, limit: nat)
    requires AllContinue(endpoint, instId, limit, MAX_PAGES)
    ensures Requests(endpoint, instId, limit) == None
  {
    forall n: nat | n < MAX_PAGES ensures !Complete(endpoint, instId, limit, n) {
      ContinuesBelow(endpoint, instId, limit, MAX_PAGES, n);
    }
  }

  lemma NextCursor(endpoint: Endpoint, n: nat, page: seq<Item>)
    requires PageAt(endpoint, n) == Ok(page) && page != []
    ensures CursorAt(endpoint, n + 1) == Some(page[|page| - 1].cursor)
  {
  }

  lemma ReceivedStep(endpoint: Endpoint, n: nat, page: seq<Item>)
    requires PageAt(endpoint, n) == Ok(page)
    ensures Received(endpoint, n + 1) == Received(endpoint, n) + page
  {
  }

  lemma CollectsPage(endpoint: Endpoint, n: nat, page: seq<Item>, soFar: Found)
    requires PageAt(endpoint, n) == Ok(page)
    ensures Gathered(Collection(endpoint, n, soFar), page) == Collection(endpoint, n + 1, soFar)
  {
    ReceivedStep(endpoint, n, page);
    GatheredCompose(soFar, Received(endpoint, n), page);
  }

  lemma AppendAssociates(a: seq<Item>, b: seq<Item>, c: seq<Item>)
    ensures (a + b) + c == a + (b + c)
  {
  }

  lemma UnionAssociates(a: set<string>, b: set<string>, c: set<string>)
    ensures (a + b) + c == a + (b + c)
  {
  }

  lemma EmptyUnits(items: seq<Item>, keys: set<string>)
    ensures [] + items == items == items + []
    ensures {} + keys == keys == keys + {}
  {
  }

  lemma {:induction false} KeysCompose(a: seq<Item>, b: seq<Item>)
    ensures Keys(a + b) == Keys(a) + Keys(b)
  {
    if b == [] {
      assert a + b == a;
    } else {
      KeysCompose(a, b[..|b| - 1]);
      assert (a + b)[..|a + b| - 1] == a + b[..|b| - 1];
    }
  }

  /** One request: the page is checked, collected, and decides how to go on. */
  method RequestPage(
    endpoint: Endpoint, instId: string, limit: nat, n: nat, after: Option<string>,
    ghost start: Found, items: seq<Item>, seen: set<string>)
    returns (step: PageStep, newItems: seq<Item>, newSeen: set<string>)
    requires limit > 0 && after == CursorAt(endpoint, n) && AllContinue(endpoint, instId, limit, n)
    requires n < MAX_PAGES && Found(items, seen) == Collection(endpoint, n, start)
    ensures step.Refuse? ==> Requests(endpoint, instId, limit) == None
    ensures step.Finish? ==> Requests(endpoint, instId, limit) == Some(n + 1)
    ensures step.Follow? ==> AllContinue(endpoint, instId, limit, n + 1) && CursorAt(endpoint, n + 1) == Some(step.cursor)
    ensures !step.Refuse? ==> Found(newItems, newSeen) == Collection(endpoint, n + 1, start)
    ensures !step.Follow? ==> !AllContinue(endpoint, instId, limit, MAX_PAGES)
    ensures step.Refuse? ==> RefusedAt(endpoint, instId, limit, n, step.error)
  {
    var reply := endpoint(n, after);
    assert reply == PageAt(endpoint, n);
    match reply {
      case Err(error) =>
        RefusedHere(endpoint, instId, limit, n);
        StopsHere(endpoint, instId, limit, n);
        step, newItems, newSeen := Refuse(error), items, seen;
      case Ok(page) =>
        CollectsPage(endpoint, n, page, start);
        step, newItems, newSeen := TakePage(page, instId, limit, after, items, seen);
        if step.Refuse? {
          RefusedHere(endpoint, instId, limit, n);
          JudgeSaysWhy(page, instId, limit, after);
          StopsHere(endpoint, instId, limit, n);
        } else if step.Finish? {
          FinishedHere(endpoint, instId, limit, n, page);
          RequestsMeans(endpoint, instId, limit, n);
          StopsHere(endpoint, instId, limit, n);
        } else {
          FollowedHere(endpoint, instId, limit, n, page);
        }
    }
  }

  /** Page `n` is the one that refuses the conversation, and why. */
  ghost predicate RefusedAt(endpoint: Endpoint, instId: string, limit: nat, n: nat, error: FetchError) {
    && AllContinue(endpoint, instId, limit, n)
    && match PageAt(endpoint, n)
       case Err(transport) => error == transport
       case Ok(page) => SaysWhy(page, instId, limit, CursorAt(endpoint, n), error)
  }

  /** The first thing wrong with a page. */
  ghost predicate SaysWhy(page: seq<Item>, instId: string, limit: nat, after: Option<string>, error: FetchError) {
    if exists i :: 0 <= i < |page| && !(page[i].instId == instId && page[i].documented) then error == Mismatch
    else if exists i :: 0 <= i < |page| && Blank(page[i].key) then error == EmptyIdentity
    else
      |page| == limit > 0
      && (if Blank(page[|page| - 1].cursor) then error == MissingCursor
          else after == Some(page[|page| - 1].cursor) && error == RepeatedCursor)
  }

  lemma JudgeSaysWhy(page: seq<Item>, instId: string, limit: nat, after: Option<string>)
    requires limit > 0 && Judge(page, instId, limit, after).Refuse?
    ensures SaysWhy(page, instId, limit, after, Judge(page, instId, limit, after).error)
  {
  }

  /** Follows one endpoint for at most twenty requests. It succeeds exactly when
      some page within the bound completes the list, and then it has collected
      the first occurrences of everything received; any other conversation is
      refused. */
  method AppendEndpoint(endpoint: Endpoint, instId: string, limit: nat, items: seq<Item>, seen: set<string>)
    returns (result: Result<(), FetchError>, newItems: seq<Item>, newSeen: set<string>)
    requires limit > 0
    ensures result.Ok? <==> Requests(endpoint, instId, limit).Some?
    ensures result.Ok? ==>
              Found(newItems, newSeen) == Collection(endpoint, Requests(endpoint, instId, limit).value, Found(items, seen))
    ensures AllContinue(endpoint, instId, limit, MAX_PAGES) ==> result == Err(TooManyPages)
    ensures result.Err? && !AllContinue(endpoint, instId, limit, MAX_PAGES) ==>
              exists n: nat :: n < 20 && RefusedAt(endpoint, instId, limit, n, result.error)
  {
    newItems, newSeen := items, seen;
    var after: Option<string> := None;
    for n := 0 to MAX_PAGES
      invariant n < MAX_PAGES ==> after == CursorAt(endpoint, n)
      invariant AllContinue(endpoint, instId, limit, n)
      invariant n < MAX_PAGES ==> Found(newItems, newSeen) == Collection(endpoint, n, Found(items, seen))
    {
      var step;
      step, newItems, newSeen := RequestPage(endpoint, instId, limit, n, after, Found(items, seen), newItems, newSeen);
      match step {
        case Refuse(error) => return Err(error), newItems, newSeen;
        case Finish => return Ok(()), newItems, newSeen;
        case Follow(cursor) => after := Some(cursor);
      }
    }
    NeverEnds(endpoint, instId, limit);
    result := Err(TooManyPages);
  }

  /** Open orders, open algo orders: one endpoint. */
  method FetchOne(endpoint: Endpoint, instId: string, limit: nat) returns (result: Result<seq<Item>, FetchError>)
    requires limit > 0
    ensures result.Ok? <==> Requests(endpoint, instId, limit).Some?
    ensures result.Ok? ==>
              result.value == FirstOccurrences({}, Received(endpoint, Requests(endpoint, instId, limit).value))
    ensures result.Ok? ==> DistinctKeys(result.value) && Belongs(result.value, instId)
  {
    var status, items, seen := AppendEndpoint(endpoint, instId, limit, [], {});
    match status {
      case Err(error) => result := Err(error);
      case Ok(_) =>
        ghost var received := Received(endpoint, Requests(endpoint, instId, limit).value);
        GatheredMeans([], {}, received);
        EmptyUnits(FirstOccurrences({}, received), {});
        FirstOccurrencesAreDistinct({}, received);
        CompleteBelongs(endpoint, instId, limit);
        KeptBelongs(received, instId);
        result := Ok(items);
    }
  }

  /** Order history and fills: recent endpoint, then archive, one shared key set. */
  method FetchHistory(recent: Endpoint, archive: Endpoint, instId: string, limit: nat)
    returns (result: Result<seq<Item>, FetchError>)
    requires limit > 0
    ensures result.Ok? <==> Requests(recent, instId, limit).Some? && Requests(archive, instId, limit).Some?
    ensures result.Ok? ==>
              result.value == FirstOccurrences({}, Received(recent, Requests(recent, instId, limit).value)
                                                 + Received(archive, Requests(archive, instId, limit).value))
    ensures result.Ok? ==> DistinctKeys(result.value) && Belongs(result.value, instId)
  {
    var status, items, seen := AppendEndpoint(recent, instId, limit, [], {});
    if status.Err? {
      return Err(status.error);
    }
    ghost var firstItems, firstSeen := items, seen;
    status, items, seen := AppendEndpoint(archive, instId, limit, items, seen);
    if status.Err? {
      return Err(status.error);
    }
    HistoryCollected(recent, archive, Requests(recent, instId, limit).value, Requests(archive, instId, limit).value,
                     firstItems, firstSeen, items, seen);
    HistoryBelongs(recent, archive, instId, limit);
    result := Ok(items);
  }

  lemma HistoryBelongs(recent: Endpoint, archive: Endpoint, instId: string, limit: nat)
    requires Requests(recent, instId, limit).Some? && Requests(archive, instId, limit).Some?
    ensures Belongs(FirstOccurrences({}, Received(recent, Requests(recent, instId, limit).value)
                                           + Received(archive, Requests(archive, instId, limit).value)), instId)
  {
    CompleteBelongs(recent, instId, limit);
    CompleteBelongs(archive, instId, limit);
    KeptBelongs(Received(recent, Requests(recent, instId, limit).value)
                  + Received(archive, Requests(archive, instId, limit).value), instId);
  }

  lemma HistoryCollected(
    recent: Endpoint, archive: Endpoint, first: nat, second: nat,
    firstItems: seq<Item>, firstSeen: set<string>, items: seq<Item>, seen: set<string>)
    requires Found(firstItems, firstSeen) == Collection(recent, first, Found([], {}))
    requires Found(items, seen) == Collection(archive, second, Found(firstItems, firstSeen))
    ensures items == FirstOccurrences({}, Received(recent, first) + Received(archive, second))
    ensures DistinctKeys(items)
  {
    var both := Received(recent, first) + Received(archive, second);
    GatheredCompose(Found([], {}), Received(recent, first), Received(archive, second));
    GatheredMeans([], {}, both);
    EmptyUnits(FirstOccurrences({}, both), {});
    FirstOccurrencesAreDistinct({}, both);
  }

  // ---------- an endpoint that really pages a list ----------

  /** The position after the item with this cursor; the end when there is none. */
  function AfterCursor(list: seq<Item>, cursor: string): (i: nat)
    ensures i <= |list|
  {
    if list == [] then 0
    else if list[0].cursor == cursor then 1
    else AfterCursor(list[1..], cursor) + 1
  }

  function Slice(list: seq<Item>, start: nat, limit: nat): seq<Item>
    requires start <= |list|
  {
    if start + limit <= |list| then list[start..start + limit] else list[start..]
  }

  /** Where the page after a cursor starts. */
  function StartAfter(list: seq<Item>, after: Option<string>): (i: nat)
    ensures i <= |list|
  {
    match after
    case None => 0
    case Some(cursor) => AfterCursor(list, cursor)
  }

  ghost predicate Answers(endpoint: Endpoint, list: seq<Item>, limit: nat, n: nat, after: Option<string>) {
    endpoint(n, after) == Ok(Slice(list, StartAfter(list, after), limit))
  }

  /** The endpoint answers every request from this list. */
  ghost predicate Serves(endpoint: Endpoint, list: seq<Item>, limit: nat) {
    forall n: nat, after: Option<string> :: Answers(endpoint, list, limit, n, after)
  }

  /** A list the loops accept: one instrument, distinct and non-blank ids. */
  ghost predicate Listing(list: seq<Item>, instId: string) {
    && AllMatch(list, instId) && AllNamed(list) && DistinctKeys(list)
    && forall i | 0 <= i < |list| :: list[i].cursor == list[i].key
  }

  lemma {:induction false} AfterCursorFinds(list: seq<Item>, i: nat)
    requires i < |list| && DistinctKeys(list)
    requires forall j | 0 <= j < |list| :: list[j].cursor == list[j].key
    ensures AfterCursor(list, list[i].cursor) == i + 1
  {
    if i > 0 {
      assert list[0].key != list[i].key;
      assert list[1..][i - 1] == list[i];
      AfterCursorFinds(list[1..], i - 1);
    }
  }

  lemma ServesAfter(endpoint: Endpoint, list: seq<Item>, instId: string, limit: nat, n: nat, i: nat)
    requires Listing(list, instId) && Serves(endpoint, list, limit) && i < |list|
    ensures endpoint(n, Some(list[i].cursor)) == Ok(Slice(list, i + 1, limit))
  {
    AfterCursorFinds(list, i);
    assert Answers(endpoint, list, limit, n, Some(list[i].cursor));
  }

  /** The position of the n-th page; multiples of the limit. */
  function PageStart(n: nat, limit: nat): nat {
    if n == 0 then 0 else PageStart(n - 1, limit) + limit
  }

  lemma {:induction false} PageStartIsProduct(n: nat, limit: nat)
    ensures PageStart(n, limit) == n * limit
  {
    if n > 0 {
      PageStartIsProduct(n - 1, limit);
      assert n * limit == (n - 1) * limit + limit;
    }
  }

  lemma CursorAfterPage(endpoint: Endpoint, n: nat, list: seq<Item>, start: nat, limit: nat)
    requires limit > 0 && start + limit <= |list| && PageAt(endpoint, n) == Ok(Slice(list, start, limit))
    ensures CursorAt(endpoint, n + 1) == Some(list[start + limit - 1].cursor)
  {
    var page := WholeSlice(list, start, limit);
    NextCursor(endpoint, n, page);
  }

  lemma PageByCursor(endpoint: Endpoint, n: nat, cursor: string)
    requires CursorAt(endpoint, n) == Some(cursor)
    ensures PageAt(endpoint, n) == endpoint(n, Some(cursor))
  {
  }

  lemma NextPageOfListing(endpoint: Endpoint, list: seq<Item>, instId: string, limit: nat, n: nat, start: nat)
    requires Listing(list, instId) && Serves(endpoint, list, limit) && limit > 0 && start + limit <= |list|
    requires PageAt(endpoint, n) == Ok(Slice(list, start, limit))
    ensures PageAt(endpoint, n + 1) == Ok(Slice(list, start + limit, limit))
    ensures CursorAt(endpoint, n + 1) == Some(list[start + limit - 1].cursor)
  {
    CursorAfterPage(endpoint, n, list, start, limit);
    ServesAfter(endpoint, list, instId, limit, n + 1, start + limit - 1);
    PageByCursor(endpoint, n + 1, list[start + limit - 1].cursor);
  }

  lemma {:induction false} PagesOfListing(endpoint: Endpoint, list: seq<Item>, instId: string, limit: nat, n: nat)
    requires Listing(list, instId) && Serves(endpoint, list, limit) && limit > 0 && PageStart(n, limit) <= |list|
    ensures PageAt(endpoint, n) == Ok(Slice(list, PageStart(n, limit), limit))
    ensures n > 0 ==> CursorAt(endpoint, n) == Some(list[PageStart(n, limit) - 1].cursor)
  {
    if n == 0 {
      assert Answers(endpoint, list, limit, 0, None);
    } else {
      PagesOfListing(endpoint, list, instId, limit, n - 1);
      NextPageOfListing(endpoint, list, instId, limit, n - 1, PageStart(n - 1, limit));
    }
  }

  lemma ReceivedGrows(endpoint: Endpoint, n: nat, page: seq<Item>, before: seq<Item>, after: seq<Item>)
    requires PageAt(endpoint, n) == Ok(page) && Received(endpoint, n) == before && before + page == after
    ensures Received(endpoint, n + 1) == after
  {
  }

  /** The first `n` pages are whole pages of the list. */
  ghost predicate WholePages(endpoint: Endpoint, list: seq<Item>, limit: nat, n: nat) {
    n == 0
    || (WholePages(endpoint, list, limit, n - 1) && PageStart(n, limit) <= |list|
        && PageAt(endpoint, n - 1) == Ok(Slice(list, PageStart(n - 1, limit), limit)))
  }

  lemma {:induction false} ReceivedOfPages(endpoint: Endpoint, list: seq<Item>, limit: nat, n: nat)
    requires limit > 0 && PageStart(n, limit) <= |list| && WholePages(endpoint, list, limit, n)
    ensures Received(endpoint, n) == list[..PageStart(n, limit)]
  {
    if n > 0 {
      var start := PageStart(n - 1, limit);
      ReceivedOfPages(endpoint, list, limit, n - 1);
      var page := WholeSlice(list, start, limit);
      ReceivedGrows(endpoint, n - 1, page, list[..start], list[..start + limit]);
    }
  }

  lemma {:induction false} ListingServesPages(endpoint: Endpoint, list: seq<Item>, instId: string, limit: nat, n: nat)
    requires Listing(list, instId) && Serves(endpoint, list, limit) && limit > 0 && PageStart(n, limit) <= |list|
    ensures WholePages(endpoint, list, limit, n)
  {
    if n > 0 {
      ListingServesPages(endpoint, list, instId, limit, n - 1);
      PagesOfListing(endpoint, list, instId, limit, n - 1);
    }
  }

  lemma WholeSlice(list: seq<Item>, start: nat, limit: nat) returns (page: seq<Item>)
    requires start + limit <= |list| && limit > 0
    ensures page == Slice(list, start, limit) && |page| == limit
    ensures list[..start] + page == list[..start + limit]
    ensures page[limit - 1] == list[start + limit - 1]
  {
    page := list[start..start + limit];
  }

  lemma LastSlice(list: seq<Item>, start: nat, limit: nat)
    requires start <= |list| < start + limit
    ensures list[..start] + Slice(list, start, limit) == list
  {
  }

  lemma SliceIsGood(list: seq<Item>, instId: string, start: nat, limit: nat)
    requires Listing(list, instId) && start <= |list|
    ensures AllMatch(Slice(list, start, limit), instId) && AllNamed(Slice(list, start, limit))
  {
  }

  lemma CursorsDiffer(list: seq<Item>, instId: string, i: nat, j: nat)
    requires Listing(list, instId) && i < j < |list|
    ensures list[i].cursor != list[j].cursor && !Blank(list[j].cursor)
  {
    assert list[i].key != list[j].key;
  }

  lemma FullPageContinues(endpoint: Endpoint, list: seq<Item>, instId: string, limit: nat, n: nat)
    requires Listing(list, instId) && Serves(endpoint, list, limit) && limit > 0 && PageStart(n + 1, limit) <= |list|
    ensures Continues(endpoint, instId, limit, n)
  {
    var start := PageStart(n, limit);
    PagesOfListing(endpoint, list, instId, limit, n);
    PagesOfListing(endpoint, list, instId, limit, n + 1);
    var page := WholeSlice(list, start, limit);
    SliceIsGood(list, instId, start, limit);
    if n > 0 {
      CursorsDiffer(list, instId, start - 1, start + limit - 1);
    } else {
      assert list[start + limit - 1].key == list[start + limit - 1].cursor;
    }
  }

  lemma {:induction false} FullPagesContinue(endpoint: Endpoint, list: seq<Item>, instId: string, limit: nat, n: nat)
    requires Listing(list, instId) && Serves(endpoint, list, limit) && limit > 0 && PageStart(n, limit) <= |list|
    ensures AllContinue(endpoint, instId, limit, n)
  {
    if n > 0 {
      FullPagesContinue(endpoint, list, instId, limit, n - 1);
      FullPageContinues(endpoint, list, instId, limit, n - 1);
    }
  }

  lemma LastPageCompletes(endpoint: Endpoint, list: seq<Item>, instId: string, limit: nat, n: nat)
    requires Listing(list, instId) && Serves(endpoint, list, limit) && limit > 0
    requires PageStart(n, limit) <= |list| < PageStart(n, limit) + limit
    ensures Complete(endpoint, instId, limit, n)
  {
    PagesOfListing(endpoint, list, instId, limit, n);
    FullPagesContinue(endpoint, list, instId, limit, n);
    SliceIsGood(list, instId, PageStart(n, limit), limit);
  }

  lemma LastPageBringsAll(endpoint: Endpoint, list: seq<Item>, instId: string, limit: nat, n: nat)
    requires Listing(list, instId) && Serves(endpoint, list, limit) && limit > 0
    requires PageStart(n, limit) <= |list| < PageStart(n, limit) + limit
    ensures Received(endpoint, n + 1) == list
  {
    var start := PageStart(n, limit);
    PagesOfListing(endpoint, list, instId, limit, n);
    ListingServesPages(endpoint, list, instId, limit, n);
    ReceivedOfPages(endpoint, list, limit, n);
    LastSlice(list, start, limit);
    ReceivedGrows(endpoint, n, Slice(list, start, limit), list[..start], list);
  }

  lemma ListingCompletesAt(endpoint: Endpoint, list: seq<Item>, instId: string, limit: nat, n: nat)
    requires Listing(list, instId) && Serves(endpoint, list, limit) && limit > 0
    requires PageStart(n, limit) <= |list| < PageStart(n, limit) + limit
    ensures Requests(endpoint, instId, limit) == if n < MAX_PAGES then Some(n + 1) else None
    ensures Received(endpoint, n + 1) == list
  {
    LastPageCompletes(endpoint, list, instId, limit, n);
    LastPageBringsAll(endpoint, list, instId, limit, n);
    RequestsMeans(endpoint, instId, limit, n);
  }

  /** A paged list is complete within the bound exactly when it has fewer than
      twenty full pages of items, and then it has been received whole. */
  lemma ListingCompletes(endpoint: Endpoint, list: seq<Item>, instId: string, limit: nat)
    requires Listing(list, instId) && Serves(endpoint, list, limit) && limit > 0
    ensures Requests(endpoint, instId, limit).Some? <==> |list| < 20 * limit
    ensures var requests := Requests(endpoint, instId, limit);
            requests.Some? ==> Received(endpoint, requests.value) == list
  {
    var n := LastPage(|list|, limit);
    ListingCompletesAt(endpoint, list, instId, limit, n);
  }

  lemma LastPage(total: nat, limit: nat) returns (n: nat)
    requires limit > 0
    ensures PageStart(n, limit) <= total < PageStart(n, limit) + limit
    ensures n < MAX_PAGES <==> total < MAX_PAGES * limit
  {
    n := total / limit;
    QuotientBelow(total, limit, MAX_PAGES);
    DivisionBounds(total, limit);
    PageStartIsProduct(n, limit);
  }

  lemma DivisionBounds(a: nat, b: nat)
    requires b > 0
    ensures (a / b) * b <= a < (a / b) * b + b
  {
  }

  lemma FloorMonotone(a: nat, b: nat, c: nat)
    requires a <= b
    ensures a * c <= b * c
  {
  }

  lemma QuotientBelow(a: nat, b: nat, bound: nat)
    requires b > 0
    ensures a / b < bound <==> a < bound * b
  {
    DivisionBounds(a, b);
    if a / b < bound {
      FloorMonotone(a / b + 1, bound, b);
    } else {
      FloorMonotone(bound, a / b, b);
    }
  }

  /** All or refuse: a paged list is returned whole and in order exactly when it
      has fewer than twenty full pages of items. */
  method FetchListing(endpoint: Endpoint, ghost list: seq<Item>, instId: string, limit: nat)
    returns (result: Result<seq<Item>, FetchError>)
    requires Listing(list, instId) && Serves(endpoint, list, limit) && limit > 0
    ensures result.Ok? <==> |list| < 20 * limit
    ensures result.Ok? ==> result.value == list
  {
    result := FetchOne(endpoint, instId, limit);
    ListingCompletes(endpoint, list, instId, limit);
    DistinctIsUnchanged(list);
  }
}
