/**
 * Two checks that a full-sync payload covers the fixed horizon of `n` days from `start`: one compares the expanded
 * dates with the expected sequence, the other collects them in a set. Dates are day numbers.
 */
module FullSyncHorizon {
  import opened Common

  /** A JSON field that should hold a date: missing, null, not a calendar date, or a day. */
  datatype Field = Absent | Null | Malformed | Day(day: int)

  /**
   * A payload entry. `keysOk` says that its keys besides the dates are exactly the expected ones; `propertyOk`,
   * `targetOk` and `valuesOk` that its identifiers and values pass.
   */
  datatype Item = Item(date: Field, dateFrom: Field, dateTo: Field, keysOk: bool, propertyOk: bool, targetOk: bool,
                       valuesOk: bool)

  datatype Span = Span(first: int, last: int)

  datatype PayloadError = PAYLOAD_MISMATCH | SHAPE_INVALID | HORIZON_INVALID | INTEGRITY_INVALID

  /** The days from `lo` up to, not including, `hi`. */
  function Days(lo: int, hi: int): (days: seq<int>)
    ensures |days| == if lo <= hi then hi - lo else 0
    ensures forall i :: 0 <= i < |days| ==> days[i] == lo + i
    decreases hi - lo
  {
    if lo >= hi then [] else [lo] + Days(lo + 1, hi)
  }

  /** Exactly one day, or exactly an inclusive range. */
  predicate DateKeysExact(item: Item) {
    if !item.date.Absent? then item.dateFrom.Absent? && item.dateTo.Absent?
    else !item.dateFrom.Absent? && !item.dateTo.Absent?
  }

  /** The span an entry states to the ordered check. */
  function OrderedSpan(item: Item): Option<Span> {
    if !DateKeysExact(item) then None
    else if !item.date.Absent? then if item.date.Day? then Some(Span(item.date.day, item.date.day)) else None
    else if item.dateFrom.Day? && item.dateTo.Day? && item.dateFrom.day <= item.dateTo.day then
      Some(Span(item.dateFrom.day, item.dateTo.day))
    else None
  }

  function Expand(item: Item, n: nat): Option<seq<int>> {
    match OrderedSpan(item)
    case None => None
    case Some(span) =>
      if !item.date.Absent? || span.last - span.first < n then Some(Days(span.first, span.last + 1)) else None
  }

  /** Expands an entry day by day, giving up beyond the horizon's length. */
  method ExpandPayloadDates(item: Item, n: nat) returns (dates: Option<seq<int>>)
    ensures dates == Expand(item, n)
  {
    if !item.date.Absent? && item.dateFrom.Absent? && item.dateTo.Absent? {
      assert item.date.Day? ==> Days(item.date.day, item.date.day + 1) == [item.date.day];
      return if item.date.Day? then Some([item.date.day]) else None;
    }
    if !item.date.Absent? || item.dateFrom.Absent? || item.dateTo.Absent? {
      return None;
    }
    if !item.dateFrom.Day? || !item.dateTo.Day? || item.dateTo.day < item.dateFrom.day {
      return None;
    }
    var days: seq<int> := [];
    var date := item.dateFrom.day;
    while date <= item.dateTo.day && |days| <= n
      invariant item.dateFrom.day <= date <= item.dateTo.day + 1
      invariant days == Days(item.dateFrom.day, date) && |days| <= n + 1
      decreases item.dateTo.day - date
    {
      days := days + [date];
      date := date + 1;
    }
    return if |days| > n then None else Some(days);
  }

  /** The spans, in payload order, cover [lo, hi) consecutively. */
  ghost predicate Tiles(spans: seq<Span>, lo: int, hi: int)
    decreases |spans|
  {
    if spans == [] then lo == hi
    else spans[0].first == lo && spans[0].first <= spans[0].last < hi && Tiles(spans[1..], spans[0].last + 1, hi)
  }

  function Flatten(spans: seq<Span>): seq<int>
    decreases |spans|
  {
    if spans == [] then [] else Days(spans[0].first, spans[0].last + 1) + Flatten(spans[1..])
  }

  ghost predicate Proper(spans: seq<Span>) {
    forall s :: s in spans ==> s.first <= s.last
  }

  /** Comparing day by day with the expected sequence is the same as tiling. */
  lemma {:induction false} FlattenIsTiling(spans: seq<Span>, lo: int, hi: int)
    requires Proper(spans) && lo <= hi
    ensures Flatten(spans) == Days(lo, hi) <==> Tiles(spans, lo, hi)
    decreases |spans|
  {
    if spans == [] {
    } else {
      var head, rest := Days(spans[0].first, spans[0].last + 1), Flatten(spans[1..]);
      var mid := spans[0].last + 1;
      if spans[0].first == lo && mid <= hi {
        FlattenIsTiling(spans[1..], mid, hi);
        assert Days(lo, hi) == head + Days(mid, hi);
        assert Flatten(spans) == Days(lo, hi) ==>
            rest == Flatten(spans)[|head|..] == Days(lo, hi)[|head|..] == Days(mid, hi);
      } else {
        assert |head| > 0 && Flatten(spans)[0] == spans[0].first && |Flatten(spans)| >= |head|;
        assert lo < hi ==> Days(lo, hi)[0] == lo;
      }
    }
  }

  /** What an entry must satisfy besides its dates. */
  predicate FieldsOk(item: Item) {
    item.propertyOk && DateKeysExact(item) && item.keysOk && item.targetOk && item.valuesOk
  }

  predicate ItemsOk(items: seq<Item>) {
    forall i :: 0 <= i < |items| ==> FieldsOk(items[i]) && OrderedSpan(items[i]).Some?
  }

  function OrderedSpans(items: seq<Item>): (spans: seq<Span>)
    requires ItemsOk(items)
    ensures |spans| == |items| && forall i :: 0 <= i < |items| ==> spans[i] == OrderedSpan(items[i]).value
    ensures Proper(spans)
  {
    seq(|items|, i requires 0 <= i < |items| => OrderedSpan(items[i]).value)
  }

  /** The payload's own part of what the ordered check accepts. */
  ghost predicate TilesHorizon(items: seq<Item>, start: int, n: nat) {
    ItemsOk(items) && Tiles(OrderedSpans(items), start, start + n)
  }

  /** What the ordered check accepts. */
  ghost predicate OrderedAccepts(items: seq<Item>, start: int, n: nat, metadataOk: bool, hashOk: bool) {
    && items != [] && metadataOk && hashOk
    && TilesHorizon(items, start, n)
  }

  lemma {:induction false} FlattenAppend(spans: seq<Span>, span: Span)
    ensures Flatten(spans + [span]) == Flatten(spans) + Days(span.first, span.last + 1)
    decreases |spans|
  {
    if spans == [] {
      assert (spans + [span])[1..] == [];
    } else {
      var more := spans + [span];
      assert more[1..] == spans[1..] + [span];
      FlattenAppend(spans[1..], span);
      var head, rest := Days(spans[0].first, spans[0].last + 1), Flatten(spans[1..]);
      var days := Days(span.first, span.last + 1);
      assert Flatten(more) == head + (rest + days);
      assert head + (rest + days) == (head + rest) + days;
    }
  }

  lemma {:induction false} FlattenPrefix(spans: seq<Span>, k: nat)
    requires k <= |spans|
    ensures |Flatten(spans[..k])| <= |Flatten(spans)|
    ensures k < |spans| ==> |Flatten(spans[..k])| + |Days(spans[k].first, spans[k].last + 1)| <= |Flatten(spans)|
    decreases |spans| - k
  {
    if k == |spans| {
      assert spans[..k] == spans;
    } else {
      assert spans[..k + 1] == spans[..k] + [spans[k]];
      FlattenAppend(spans[..k], spans[k]);
      FlattenPrefix(spans, k + 1);
    }
  }

  /** The spans of the first `k` entries. */
  ghost predicate SpansOf(items: seq<Item>, k: nat, spans: seq<Span>) {
    && k == |spans| <= |items|
    && forall i :: 0 <= i < k ==> FieldsOk(items[i]) && OrderedSpan(items[i]) == Some(spans[i])
  }

  /** In an accepted payload every expansion succeeds and the running total stays within the horizon. */
  lemma AcceptedPrefix(items: seq<Item>, k: nat, spans: seq<Span>, start: int, n: nat)
    requires k < |items| && SpansOf(items, k, spans) && ItemsOk(items)
    requires Tiles(OrderedSpans(items), start, start + n)
    ensures Expand(items[k], n).Some? && |Flatten(spans)| + |Expand(items[k], n).value| <= n
  {
    var all := OrderedSpans(items);
    FlattenIsTiling(all, start, start + n);
    FlattenPrefix(all, k);
    assert all[..k] == spans;
  }

  method ValidateFields(item: Item) returns (error: Option<PayloadError>)
    ensures error.None? <==> FieldsOk(item)
    ensures error.Some? ==> error.value.PAYLOAD_MISMATCH? || error.value.SHAPE_INVALID?
    ensures error == Some(PAYLOAD_MISMATCH) ==> !item.propertyOk || !item.targetOk
    ensures error == Some(SHAPE_INVALID) ==> !DateKeysExact(item) || !item.keysOk || !item.valuesOk
  {
    if !item.propertyOk {
      return Some(PAYLOAD_MISMATCH);
    }
    if !DateKeysExact(item) || !item.keysOk {
      return Some(SHAPE_INVALID);
    }
    if !item.targetOk {
      return Some(PAYLOAD_MISMATCH);
    }
    return if item.valuesOk then None else Some(SHAPE_INVALID);
  }

  /** The days of one entry, if it is well formed and no longer than the horizon. */
  method CheckItem(item: Item, n: nat) returns (days: Result<seq<int>, PayloadError>)
    ensures days.Ok? <==> FieldsOk(item) && Expand(item, n).Some?
    ensures days.Ok? ==> Some(days.value) == Expand(item, n)
    ensures days.Err? ==> days.error != INTEGRITY_INVALID
    ensures days.Err? ==> (days.error == HORIZON_INVALID <==> FieldsOk(item))
  {
    var error := ValidateFields(item);
    if error.Some? {
      return Err(error.value);
    }
    var dates := ExpandPayloadDates(item, n);
    return if dates.Some? then Ok(dates.value) else Err(HORIZON_INVALID);
  }

  /** An entry that is refused, or takes the total beyond the horizon, is in no accepted payload. */
  lemma RefusedPayload(items: seq<Item>, k: nat, spans: seq<Span>, start: int, n: nat)
    requires k < |items| && SpansOf(items, k, spans)
    requires FieldsOk(items[k]) && Expand(items[k], n).Some? ==> |Flatten(spans)| + |Expand(items[k], n).value| > n
    ensures !TilesHorizon(items, start, n)
  {
    if TilesHorizon(items, start, n) {
      AcceptedPrefix(items, k, spans, start, n);
    }
  }

  lemma SpansGrow(items: seq<Item>, k: nat, spans: seq<Span>, n: nat) returns (more: seq<Span>)
    requires k < |items| && SpansOf(items, k, spans) && FieldsOk(items[k]) && Expand(items[k], n).Some?
    ensures SpansOf(items, k + 1, more) && Flatten(more) == Flatten(spans) + Expand(items[k], n).value
  {
    var span := OrderedSpan(items[k]).value;
    FlattenAppend(spans, span);
    more := spans + [span];
  }

  /** The covered days of all entries, unless one is malformed or the days exceed the horizon's number. */
  method CollectCovered(items: seq<Item>, start: int, n: nat) returns (covered: Result<seq<int>, PayloadError>)
    ensures covered.Ok? ==> ItemsOk(items) && covered.value == Flatten(OrderedSpans(items))
    ensures covered.Err? ==> !TilesHorizon(items, start, n)
    ensures covered.Err? ==> covered.error != INTEGRITY_INVALID
    ensures covered.Err? && covered.error != HORIZON_INVALID ==> exists i :: 0 <= i < |items| && !FieldsOk(items[i])
  {
    var days: seq<int> := [];
    ghost var spans: seq<Span> := [];
    for k := 0 to |items|
      invariant SpansOf(items, k, spans)
      invariant days == Flatten(spans) && |days| <= n
    {
      var dates := CheckItem(items[k], n);
      if dates.Err? {
        RefusedPayload(items, k, spans, start, n);
        return Err(dates.error);
      }
      if |days + dates.value| > n {
        RefusedPayload(items, k, spans, start, n);
        return Err(HORIZON_INVALID);
      }
      spans := SpansGrow(items, k, spans, n);
      days := days + dates.value;
    }
    assert spans == OrderedSpans(items);
    return Ok(days);
  }

  /**
   * The ordered check. It accepts exactly the payloads whose entries are well formed and whose ranges, in payload
   * order, tile the horizon.
   */
  method ValidateFullSyncPayload(items: seq<Item>, start: int, n: nat, metadataOk: bool, hashOk: bool)
    returns (result: Result<seq<int>, PayloadError>)
    ensures result.Ok? <==> OrderedAccepts(items, start, n, metadataOk, hashOk)
    ensures result.Ok? ==> result.value == Days(start, start + n)
    ensures items == [] ==> result == Err(SHAPE_INVALID)
    ensures result == Err(INTEGRITY_INVALID) ==> !metadataOk || !hashOk
    ensures result == Err(HORIZON_INVALID) ==> !TilesHorizon(items, start, n)
    ensures result == Err(SHAPE_INVALID) || result == Err(PAYLOAD_MISMATCH) ==>
              items == [] || exists i :: 0 <= i < |items| && !FieldsOk(items[i])
  {
    if items == [] {
      return Err(SHAPE_INVALID);
    }
    if !metadataOk {
      return Err(INTEGRITY_INVALID);
    }
    var covered := CollectCovered(items, start, n);
    if covered.Err? {
      return covered;
    }
    FlattenIsTiling(OrderedSpans(items), start, start + n);
    if covered.value != Days(start, start + n) {
      return Err(HORIZON_INVALID);
    }
    return if hashOk then covered else Err(INTEGRITY_INVALID);
  }

  /** `a ?? b`. */
  function Coalesce(a: Field, b: Field): Field {
    if a.Absent? || a.Null? then b else a
  }

  /** The span an entry states to the set check, which takes a single day over a range. */
  function SetSpan(item: Item): Option<Span> {
    var lo, hi := Coalesce(item.date, item.dateFrom), Coalesce(item.date, item.dateTo);
    if lo.Day? && hi.Day? && lo.day <= hi.day then Some(Span(lo.day, hi.day)) else None
  }

  /** A day is taken over a range; a missing day gives way to one, and so does null, which the ordered check refuses. */
  lemma SetSpanStates(item: Item)
    ensures item.date.Day? ==> SetSpan(item) == Some(Span(item.date.day, item.date.day))
    ensures item.date.Malformed? ==> SetSpan(item).None?
    ensures item.date.Absent? || item.date.Null? ==>
              SetSpan(item) == if item.dateFrom.Day? && item.dateTo.Day? && item.dateFrom.day <= item.dateTo.day
                               then Some(Span(item.dateFrom.day, item.dateTo.day)) else None
    ensures item.date.Null? ==> OrderedSpan(item).None?
  {
  }

  predicate Within(span: Span, start: int, n: nat) {
    start <= span.first <= span.last < start + n
  }

  predicate Disjoint(a: Span, b: Span) {
    a.last < b.first || b.last < a.first
  }

  predicate Holds(span: Span, day: int) {
    span.first <= day <= span.last
  }

  predicate SpansGiven(items: seq<Item>) {
    forall i :: 0 <= i < |items| ==> SetSpan(items[i]).Some?
  }

  function SetSpans(items: seq<Item>): (spans: seq<Span>)
    requires SpansGiven(items)
    ensures |spans| == |items| && forall i :: 0 <= i < |items| ==> spans[i] == SetSpan(items[i]).value
  {
    seq(|items|, i requires 0 <= i < |items| => SetSpan(items[i]).value)
  }

  ghost predicate Scattered(spans: seq<Span>, start: int, n: nat) {
    && (forall i :: 0 <= i < |spans| ==> Within(spans[i], start, n))
    && (forall i, j :: 0 <= i < j < |spans| ==> Disjoint(spans[i], spans[j]))
  }

  predicate InHorizon(day: int, start: int, n: nat) {
    start <= day < start + n
  }

  ghost predicate Held(spans: seq<Span>, day: int) {
    exists i :: 0 <= i < |spans| && Holds(spans[i], day)
  }

  /** The spans partition the horizon, in any order. */
  ghost predicate Partitions(spans: seq<Span>, start: int, n: nat) {
    Scattered(spans, start, n) && forall day :: InHorizon(day, start, n) ==> Held(spans, day)
  }

  ghost function Horizon(start: int, n: nat): (s: set<int>)
    ensures |s| == n && forall day :: day in s <==> start <= day < start + n
    decreases n
  {
    if n == 0 then {} else Horizon(start, n - 1) + {start + n - 1}
  }

  /** Pigeonhole: distinct days inside the horizon that number `n` are all of them. */
  lemma FullSetIsHorizon(covered: set<int>, start: int, n: nat)
    requires forall day :: day in covered ==> start <= day < start + n
    ensures |covered| == n <==> forall day :: InHorizon(day, start, n) ==> day in covered
  {
    var horizon := Horizon(start, n);
    assert covered <= horizon;
    assert |horizon - covered| == |horizon| - |covered|;
    if |covered| == n {
      forall day | InHorizon(day, start, n) ensures day in covered {
        assert day !in covered ==> day in horizon - covered;
      }
    }
    if forall day :: InHorizon(day, start, n) ==> day in covered {
      assert covered == horizon by {
        forall day | day in horizon ensures day in covered {
          assert InHorizon(day, start, n);
        }
      }
    }
  }

  /**
   * The set check. It accepts exactly the payloads whose ranges partition the horizon in any order: each day is
   * collected once, and having collected `n` of them means having collected them all.
   */
  method CoversHorizon(items: seq<Item>, start: int, n: nat) returns (ok: bool)
    ensures ok <==> SpansGiven(items) && Partitions(SetSpans(items), start, n)
  {
    var covered: set<int> := {};
    for k := 0 to |items|
      invariant forall i :: 0 <= i < k ==> SetSpan(items[i]).Some? && Within(SetSpan(items[i]).value, start, n)
      invariant forall i, j :: 0 <= i < j < k ==> Disjoint(SetSpan(items[i]).value, SetSpan(items[j]).value)
      invariant forall day :: day in covered <==> exists i :: 0 <= i < k && Holds(SetSpan(items[i]).value, day)
    {
      var lo, hi := Coalesce(items[k].date, items[k].dateFrom), Coalesce(items[k].date, items[k].dateTo);
      if !lo.Day? || !hi.Day? || lo.day > hi.day {
        return false;
      }
      if lo.day < start || hi.day >= start + n {
        assert SpansGiven(items) ==> !Within(SetSpans(items)[k], start, n);
        return false;
      }
      ghost var before := covered;
      var t := lo.day;
      while t <= hi.day
        invariant lo.day <= t <= hi.day + 1
        invariant forall day :: day in covered <==> day in before || lo.day <= day < t
        invariant forall day :: lo.day <= day < t ==> day !in before
      {
        if t in covered {
          var i :| 0 <= i < k && Holds(SetSpan(items[i]).value, t);
          assert SpansGiven(items) ==> !Disjoint(SetSpans(items)[i], SetSpans(items)[k]);
          return false;
        }
        covered := covered + {t};
        t := t + 1;
      }
      forall i | 0 <= i < k ensures Disjoint(SetSpan(items[i]).value, Span(lo.day, hi.day)) {
        var a := SetSpan(items[i]).value;
        var day := if a.first >= lo.day then a.first else lo.day;
        assert Holds(a, day) ==> day in before;
      }
    }
    forall day | day in covered ensures start <= day < start + n {
      var i :| 0 <= i < |items| && Holds(SetSpan(items[i]).value, day);
    }
    FullSetIsHorizon(covered, start, n);
    forall day ensures day in covered <==> Held(SetSpans(items), day) {
      if day in covered {
        var i :| 0 <= i < |items| && Holds(SetSpan(items[i]).value, day);
        assert Holds(SetSpans(items)[i], day);
      }
      if Held(SetSpans(items), day) {
        var i :| 0 <= i < |SetSpans(items)| && Holds(SetSpans(items)[i], day);
        assert Holds(SetSpan(items[i]).value, day);
      }
    }
    return |covered| == n;
  }

  lemma {:induction false} TilingPartitions(spans: seq<Span>, start: int, n: nat)
    requires Tiles(spans, start, start + n)
    ensures Partitions(spans, start, n)
    ensures forall i, j :: 0 <= i < j < |spans| ==> spans[i].first < spans[j].first
    decreases |spans|
  {
    if spans == [] {
    } else {
      var mid, rest := spans[0].last + 1, spans[1..];
      var m := start + n - mid;
      TilingPartitions(rest, mid, m);
      assert forall i :: 0 < i < |spans| ==> spans[i] == rest[i - 1];
      forall i | 0 <= i < |spans| ensures Within(spans[i], start, n) {
        assert i > 0 ==> Within(rest[i - 1], mid, m);
      }
      forall i, j | 0 <= i < j < |spans|
        ensures Disjoint(spans[i], spans[j]) && spans[i].first < spans[j].first
      {
        assert Within(rest[j - 1], mid, m);
        assert i > 0 ==> Disjoint(rest[i - 1], rest[j - 1]);
      }
      forall day | InHorizon(day, start, n) ensures Held(spans, day) {
        if day < mid {
          assert Holds(spans[0], day);
        } else {
          assert InHorizon(day, mid, m);
          var i :| 0 <= i < |rest| && Holds(rest[i], day);
          assert Holds(spans[i + 1], day);
        }
      }
    }
  }

  lemma {:induction false} PartitionTiles(spans: seq<Span>, start: int, n: nat)
    requires Partitions(spans, start, n)
    requires forall i, j :: 0 <= i < j < |spans| ==> spans[i].first < spans[j].first
    ensures Tiles(spans, start, start + n)
    decreases |spans|
  {
    if spans == [] {
      assert InHorizon(start, start, n) ==> Held(spans, start);
    } else {
      var mid, rest := spans[0].last + 1, spans[1..];
      assert Within(spans[0], start, n);
      assert InHorizon(start, start, n) && Held(spans, start);
      var at :| 0 <= at < |spans| && Holds(spans[at], start);
      assert Within(spans[at], start, n);
      var m := start + n - mid;
      assert forall i :: 0 <= i < |rest| ==> rest[i] == spans[i + 1];
      forall i | 0 <= i < |rest| ensures Within(rest[i], mid, m) {
        assert Within(spans[i + 1], start, n) && Disjoint(spans[0], spans[i + 1]);
      }
      forall day | InHorizon(day, mid, m) ensures Held(rest, day) {
        assert InHorizon(day, start, n) && Held(spans, day);
        var i :| 0 <= i < |spans| && Holds(spans[i], day);
        assert i > 0 && Holds(rest[i - 1], day);
      }
      PartitionTiles(rest, mid, m);
    }
  }

  /** Tilings are exactly the partitions listed in ascending order. */
  lemma TilingIsOrderedPartition(spans: seq<Span>, start: int, n: nat)
    ensures Tiles(spans, start, start + n) <==>
            Partitions(spans, start, n) && forall i, j :: 0 <= i < j < |spans| ==> spans[i].first < spans[j].first
    decreases |spans|
  {
    if Tiles(spans, start, start + n) {
      TilingPartitions(spans, start, n);
    }
    if Partitions(spans, start, n) && forall i, j :: 0 <= i < j < |spans| ==> spans[i].first < spans[j].first {
      PartitionTiles(spans, start, n);
    }
  }

  /** Whatever the ordered check accepts, the set check accepts. */
  lemma OrderedImpliesSet(items: seq<Item>, start: int, n: nat, metadataOk: bool, hashOk: bool)
    requires OrderedAccepts(items, start, n, metadataOk, hashOk)
    ensures SpansGiven(items) && Partitions(SetSpans(items), start, n)
  {
    forall i | 0 <= i < |items| ensures SetSpan(items[i]) == OrderedSpan(items[i]) {
      assert FieldsOk(items[i]);
    }
    assert SetSpans(items) == OrderedSpans(items);
    TilingIsOrderedPartition(OrderedSpans(items), start, n);
  }

  /** An entry that passes every check but the horizon's: a single day or a range, and nothing else wrong. */
  predicate WellFormed(item: Item) {
    && item.propertyOk && item.targetOk && item.valuesOk && item.keysOk
    && if item.date.Absent? then !item.dateFrom.Absent? && !item.dateTo.Absent?
       else item.dateFrom.Absent? && item.dateTo.Absent?
  }

  predicate Ascending(spans: seq<Span>) {
    forall i, j :: 0 <= i < j < |spans| ==> spans[i].first < spans[j].first
  }

  lemma WellFormedStatesBoth(item: Item)
    ensures FieldsOk(item) <==> WellFormed(item)
    ensures WellFormed(item) ==> SetSpan(item) == OrderedSpan(item)
  {
  }

  /**
   * The two checks compared exactly: the ordered one accepts what the set check accepts, in ascending order, with well
   * formed entries and sound metadata and hash.
   */
  lemma OrderedIsSetInOrder(items: seq<Item>, start: int, n: nat, metadataOk: bool, hashOk: bool)
    ensures OrderedAccepts(items, start, n, metadataOk, hashOk) <==>
            && items != [] && metadataOk && hashOk && (forall item :: item in items ==> WellFormed(item))
            && SpansGiven(items) && Partitions(SetSpans(items), start, n) && Ascending(SetSpans(items))
  {
    forall i | 0 <= i < |items|
      ensures FieldsOk(items[i]) <==> WellFormed(items[i])
      ensures WellFormed(items[i]) ==> SetSpan(items[i]) == OrderedSpan(items[i])
    {
      WellFormedStatesBoth(items[i]);
    }
    if ItemsOk(items) {
      assert SetSpans(items) == OrderedSpans(items);
      TilingIsOrderedPartition(OrderedSpans(items), start, n);
    } else if (forall item :: item in items ==> WellFormed(item)) && SpansGiven(items) {
      assert ItemsOk(items);
    }
  }

  /** The two ordinary payloads: the whole horizon as one range, and one entry per day. */
  lemma WholeRangeIsAccepted(start: int, n: nat)
    requires n > 0
    ensures OrderedAccepts([Item(Absent, Day(start), Day(start + n - 1), true, true, true, true)], start, n, true, true)
  {
    var items := [Item(Absent, Day(start), Day(start + n - 1), true, true, true, true)];
    assert SetSpans(items) == [Span(start, start + n - 1)];
    forall day | InHorizon(day, start, n) ensures Held(SetSpans(items), day) {
      assert Holds(SetSpans(items)[0], day);
    }
    OrderedIsSetInOrder(items, start, n, true, true);
  }

  lemma DailyEntriesAreAccepted(items: seq<Item>, start: int, n: nat)
    requires |items| == n > 0
    requires forall i :: 0 <= i < n ==> items[i] == Item(Day(start + i), Absent, Absent, true, true, true, true)
    ensures OrderedAccepts(items, start, n, true, true)
  {
    var spans := SetSpans(items);
    forall day | InHorizon(day, start, n) ensures Held(spans, day) {
      assert Holds(spans[day - start], day);
    }
    OrderedIsSetInOrder(items, start, n, true, true);
  }
}
