// The chronology of upstream switches: recording, merging of neighbours, active periods and their
// durations. Models hunt/switch_history.py and hunt/switch_history_stats.py. Times are whole
// microseconds; the traffic sums per period are not part of this model.

module SwitchHistory {
  import opened Wrappers

  const HISTORY_LIMIT: nat := 500

  datatype Entry = Entry(ts: int, action: string, address: string)

  predicate Ordered(h: seq<Entry>) {
    forall i, j :: 0 <= i < j < |h| ==> h[i].ts <= h[j].ts
  }

  function Last(h: seq<Entry>): Entry
    requires h != []
  {
    h[|h| - 1]
  }

  function Init(h: seq<Entry>): seq<Entry>
    requires h != []
  {
    h[..|h| - 1]
  }

  /** The address in force at a moment: that of the latest entry not after it. */
  function ActiveAt(h: seq<Entry>, t: int): Option<string> {
    if h == [] then None else if Last(h).ts <= t then Some(Last(h).address) else ActiveAt(Init(h), t)
  }

  // ---- Merging ----

  /** One entry on top of a merged history: a repeated address only renews the action. */
  function Push(m: seq<Entry>, e: Entry): seq<Entry> {
    if m != [] && Last(m).address == e.address then Init(m) + [Last(m).(action := e.action)] else m + [e]
  }

  function Merged(h: seq<Entry>): seq<Entry> {
    if h == [] then [] else Push(Merged(Init(h)), Last(h))
  }

  predicate NoTwins(m: seq<Entry>) {
    forall i :: 0 <= i < |m| - 1 ==> m[i].address != m[i + 1].address
  }

  method MergeConsecutive(h: seq<Entry>) returns (merged: seq<Entry>)
    ensures merged == Merged(h)
  {
    merged := [];
    for i := 0 to |h|
      invariant merged == Merged(h[..i])
    {
      var e := h[i];
      assert Init(h[..i + 1]) == h[..i] && Last(h[..i + 1]) == e;
      if merged != [] && merged[|merged| - 1].address == e.address {
        merged := merged[|merged| - 1 := merged[|merged| - 1].(action := e.action)];
        continue;
      }
      merged := merged + [e];
    }
    assert h[..|h|] == h;
  }

  lemma PushKeeps(m: seq<Entry>, e: Entry)
    requires NoTwins(m)
    ensures NoTwins(Push(m, e)) && Push(m, e) != [] && Last(Push(m, e)).address == e.address
    ensures m != [] ==> Push(m, e)[0].ts == m[0].ts
  {
  }

  lemma PushOrdered(m: seq<Entry>, e: Entry)
    requires Ordered(m) && (m != [] ==> Last(m).ts <= e.ts)
    ensures Ordered(Push(m, e)) && Last(Push(m, e)).ts <= e.ts
  {
  }

  lemma PushActive(m: seq<Entry>, e: Entry, t: int)
    requires m != [] ==> Last(m).ts <= e.ts
    ensures ActiveAt(Push(m, e), t) == if e.ts <= t then Some(e.address) else ActiveAt(m, t)
  {
    var p := Push(m, e);
    if m != [] && Last(m).address == e.address {
      assert Init(p) == Init(m);
    } else {
      assert Init(p) == m;
    }
  }

  /** Merging keeps the order, the first moment and the address in force at every moment, and leaves no
      two equal neighbours. */
  lemma {:induction false} MergeKeepsMeaning(h: seq<Entry>, t: int)
    requires Ordered(h)
    ensures var m := Merged(h);
            && NoTwins(m) && Ordered(m) && ActiveAt(m, t) == ActiveAt(h, t)
            && (h != [] ==> m != [] && m[0].ts == h[0].ts && Last(m).ts <= Last(h).ts)
  {
    if h != [] {
      MergeKeepsMeaning(Init(h), t);
      var m := Merged(Init(h));
      PushKeeps(m, Last(h));
      PushOrdered(m, Last(h));
      PushActive(m, Last(h), t);
    }
  }

  predicate SameAddress(g: seq<Entry>, address: string) {
    forall e <- g :: e.address == address
  }

  /** A stretch of entries with one address becomes one entry, with the time of the first and the route
      kind of the last. */
  lemma {:induction false} MergedGroup(g: seq<Entry>, address: string)
    requires g != [] && SameAddress(g, address)
    ensures Merged(g) == [Entry(g[0].ts, Last(g).action, address)]
  {
    assert Last(g) in g;
    if |g| > 1 {
      assert forall e <- Init(g) :: e in g;
      MergedGroup(Init(g), address);
    } else {
      assert Init(g) == [] && Merged(Init(g)) == [];
    }
  }

  lemma PushLast(m: seq<Entry>, e: Entry)
    ensures Push(m, e) != [] && Last(Push(m, e)).address == e.address
  {
  }

  lemma LastMerged(h: seq<Entry>)
    requires h != []
    ensures Merged(h) != [] && Last(Merged(h)).address == Last(h).address
  {
    PushLast(Merged(Init(h)), Last(h));
  }

  lemma PushAppends(x: seq<Entry>, y: seq<Entry>, e: Entry)
    requires y != [] || (x != [] && Last(x).address != e.address)
    ensures Push(x + y, e) == x + Push(y, e)
  {
    if y != [] {
      assert Last(x + y) == Last(y) && Init(x + y) == x + Init(y);
    } else {
      assert x + y == x;
    }
  }

  lemma InitConcat(a: seq<Entry>, b: seq<Entry>)
    requires b != []
    ensures Init(a + b) == a + Init(b) && Last(a + b) == Last(b)
  {
  }

  /** Where the address changes, both sides are merged on their own. */
  lemma {:induction false} MergedSplits(a: seq<Entry>, b: seq<Entry>)
    requires a != [] && b != [] && Last(a).address != b[0].address
    ensures Merged(a + b) == Merged(a) + Merged(b)
  {
    InitConcat(a, b);
    LastMerged(a);
    if |b| > 1 {
      assert Init(b)[0] == b[0];
      MergedSplits(a, Init(b));
      LastMerged(Init(b));
    } else {
      assert Init(b) == [] && a + [] == a && Merged([]) == [];
      assert Merged(a) + Merged(Init(b)) == Merged(a);
    }
    PushAppends(Merged(a), Merged(Init(b)), Last(b));
  }

  /** A history without equal neighbours is its own merge, so merging twice changes nothing. */
  lemma {:induction false} MergeIdempotent(m: seq<Entry>)
    requires NoTwins(m)
    ensures Merged(m) == m
  {
    if m != [] {
      MergeIdempotent(Init(m));
      assert m == Init(m) + [Last(m)];
      assert |m| > 1 ==> m[|m| - 2].address != m[|m| - 1].address;
    }
  }

  // ---- Periods ----

  datatype Period = Period(start: int, end: int, address: string)

  method Intervals(m: seq<Entry>, now: int) returns (periods: seq<Period>)
    ensures |periods| == |m|
    ensures forall i :: 0 <= i < |m| ==> periods[i] == PeriodAt(m, i, now)
  {
    periods := [];
    for j := 0 to |m|
      invariant |periods| == j && forall i :: 0 <= i < j ==> periods[i] == PeriodAt(m, i, now)
    {
      var end := now;
      if j + 1 < |m| {
        end := m[j + 1].ts;
      }
      periods := periods + [Period(m[j].ts, end, m[j].address)];
    }
  }

  function PeriodAt(m: seq<Entry>, i: nat, now: int): Period
    requires i < |m|
  {
    Period(m[i].ts, if i + 1 < |m| then m[i + 1].ts else now, m[i].address)
  }

  predicate Within(p: Period, t: int) { p.start <= t < p.end }

  lemma {:induction false} ActiveIndex(m: seq<Entry>, t: int) returns (i: nat)
    requires m != [] && Ordered(m) && m[0].ts <= t
    ensures i < |m| && m[i].ts <= t && (i + 1 < |m| ==> t < m[i + 1].ts)
    ensures ActiveAt(m, t) == Some(m[i].address)
  {
    if Last(m).ts <= t {
      return |m| - 1;
    }
    i := ActiveIndex(Init(m), t);
  }

  /** The periods tile the time from the first switch to now: every moment lies in exactly one, the
      one of the address in force. */
  lemma PeriodsTile(m: seq<Entry>, now: int, t: int)
    requires m != [] && Ordered(m) && Last(m).ts <= now && m[0].ts <= t < now
    ensures exists i: nat :: i < |m| && Within(PeriodAt(m, i, now), t) && ActiveAt(m, t) == Some(m[i].address)
    ensures forall i: nat, j: nat :: i < j < |m| ==> !(Within(PeriodAt(m, i, now), t) && Within(PeriodAt(m, j, now), t))
  {
    var i := ActiveIndex(m, t);
    assert Within(PeriodAt(m, i, now), t);
  }

  /** Nothing outside that span belongs to a period. */
  lemma PeriodsStayInside(m: seq<Entry>, now: int, i: nat, t: int)
    requires Ordered(m) && i < |m| && Last(m).ts <= now && Within(PeriodAt(m, i, now), t)
    ensures m[0].ts <= t < now
  {
  }

  function Duration(p: Period): int {
    if p.end - p.start > 0 then p.end - p.start else 0
  }

  function TotalTime(m: seq<Entry>, n: nat, now: int): int
    requires n <= |m|
  {
    if n == 0 then 0 else TotalTime(m, n - 1, now) + Duration(PeriodAt(m, n - 1, now))
  }

  lemma {:induction false} TimeSoFar(m: seq<Entry>, n: nat, now: int)
    requires Ordered(m) && m != [] && Last(m).ts <= now && n <= |m|
    ensures TotalTime(m, n, now) == (if n < |m| then m[n].ts else now) - m[0].ts
  {
    if n > 0 {
      TimeSoFar(m, n - 1, now);
    }
  }

  /** The durations add up to the time since the first switch. */
  method PeriodDurations(m: seq<Entry>, now: int) returns (durations: seq<int>, ghost total: int)
    requires Ordered(m) && (m != [] ==> Last(m).ts <= now)
    ensures |durations| == |m| && forall i :: 0 <= i < |m| ==> durations[i] == Duration(PeriodAt(m, i, now))
    ensures total == TotalTime(m, |m|, now) == if m == [] then 0 else now - m[0].ts
  {
    var periods := Intervals(m, now);
    durations := [];
    for i := 0 to |periods|
      invariant |durations| == i
      invariant forall k :: 0 <= k < i ==> durations[k] == Duration(PeriodAt(m, k, now))
    {
      var span := periods[i].end - periods[i].start;
      durations := durations + [if span > 0 then span else 0];
    }
    total := TotalTime(m, |m|, now);
    if m != [] {
      TimeSoFar(m, |m|, now);
    }
  }

  // ---- The shown history ----

  /** Entries without a proxy are left out. */
  function Proxied(h: seq<Entry>): seq<Entry> {
    if h == [] then [] else Proxied(Init(h)) + if Last(h).address != "" then [Last(h)] else []
  }

  lemma {:induction false} ProxiedOrdered(h: seq<Entry>)
    requires Ordered(h)
    ensures Ordered(Proxied(h))
    ensures forall e <- Proxied(h) :: e.address != "" && e in h
  {
    if h != [] {
      ProxiedOrdered(Init(h));
      assert forall e <- Proxied(Init(h)) :: e in h;
      forall e | e in Proxied(Init(h))
        ensures e.ts <= Last(h).ts
      {
        var i :| 0 <= i < |Init(h)| && Init(h)[i] == e;
        assert h[i] == e;
      }
      var p := Proxied(Init(h));
      assert forall i :: 0 <= i < |p| ==> p[i] in p;
    }
  }

  lemma {:induction false} ProxiedActive(h: seq<Entry>, t: int)
    requires Ordered(h)
    ensures ActiveAt(h, t).Some? && ActiveAt(h, t).value != "" ==> ActiveAt(Proxied(h), t) == ActiveAt(h, t)
    ensures ActiveAt(Proxied(h), t) != Some("")
  {
    if h != [] {
      ProxiedActive(Init(h), t);
      if Last(h).address != "" {
        assert Init(Proxied(h)) == Proxied(Init(h));
      } else {
        assert Proxied(h) == Proxied(Init(h));
      }
    }
  }

  /** The shown history names the address in force exactly at the moments that have a proxy or lie
      before the first entry: a stretch without a proxy is shown as the proxy before it. */
  lemma ShownIsActive(h: seq<Entry>, t: int)
    requires Ordered(h)
    ensures ActiveAt(Merged(Proxied(h)), t) == ActiveAt(h, t) <==> ActiveAt(h, t) != Some("")
  {
    ProxiedOrdered(h);
    MergeKeepsMeaning(Proxied(h), t);
    ProxiedActive(h, t);
    if ActiveAt(h, t).None? {
      NothingYet(h, t);
    }
  }

  lemma {:induction false} NothingYet(h: seq<Entry>, t: int)
    requires ActiveAt(h, t).None?
    ensures ActiveAt(Proxied(h), t).None?
  {
    if h != [] {
      NothingYet(Init(h), t);
      if Last(h).address != "" {
        assert Init(Proxied(h)) == Proxied(Init(h));
      } else {
        assert Proxied(h) == Proxied(Init(h));
      }
    }
  }

  // ---- Recording ----

  function Newest(h: seq<Entry>): seq<Entry> {
    if |h| > HISTORY_LIMIT then h[|h| - HISTORY_LIMIT..] else h
  }

  /** Entries that recording takes at all. */
  predicate Recordable(e: Entry) {
    e.address != "" && e.action != "direct"
  }

  function RecordableOnes(events: seq<Entry>): seq<Entry> {
    if events == [] then []
    else RecordableOnes(Init(events)) + if Recordable(Last(events)) then [Last(events)] else []
  }

  /** What is recorded: the switches to an address over another route than the direct one. */
  lemma {:induction false} RecordableAre(events: seq<Entry>, e: Entry)
    ensures e in RecordableOnes(events) <==> e in events && e.address != "" && e.action != "direct"
  {
    if events != [] {
      RecordableAre(Init(events), e);
      assert events == Init(events) + [Last(events)];
    }
  }

  class SwitchLog {
    var history: seq<Entry>

    predicate Valid()
      reads this
    {
      |history| <= HISTORY_LIMIT
    }

    constructor ()
      ensures Valid() && history == []
    {
      history := [];
    }

    method RecordSwitch(e: Entry)
      modifies this
      ensures Valid() && history == Newest(old(history) + [e])
    {
      history := history + [e];
      if |history| > HISTORY_LIMIT {
        history := history[|history| - HISTORY_LIMIT..];
      }
    }

    method RecordUpstreamSwitch(e: Entry)
      requires Valid()
      modifies this
      ensures Valid() && history ==
        if e.address == "" || e.action == "direct" then old(history) else Newest(Push(old(history), e))
    {
      if e.address == "" || e.action == "direct" {
        return;
      }
      if history != [] && history[|history| - 1].address == e.address {
        Renew(e.action);
        return;
      }
      RecordSwitch(e);
    }

    method Renew(action: string)
      requires history != []
      modifies this
      ensures history == Init(old(history)) + [Last(old(history)).(action := action)]
    {
      history := history[|history| - 1 := history[|history| - 1].(action := action)];
    }
  }

  lemma DropRenewed(m: seq<Entry>, k: nat, x: Entry)
    requires k < |m|
    ensures Init(m[k..]) + [x] == (Init(m) + [x])[k..]
  {
  }

  lemma DropAppended(m: seq<Entry>, k: nat, e: Entry)
    requires k < |m|
    ensures (m[k..] + [e])[1..] == (m + [e])[k + 1..]
  {
  }

  lemma PushNewest(m: seq<Entry>, e: Entry)
    ensures Newest(Push(Newest(m), e)) == Newest(Push(m, e))
  {
    if |m| > HISTORY_LIMIT {
      var k := |m| - HISTORY_LIMIT;
      var n := m[k..];
      assert Last(n) == Last(m) && Newest(m) == n && |n| == HISTORY_LIMIT;
      if Last(m).address == e.address {
        DropRenewed(m, k, Last(m).(action := e.action));
      } else {
        DropAppended(m, k, e);
      }
    }
  }

  /** Recording as it happens keeps exactly the newest five hundred entries of the merged whole. */
  method RecordAll(events: seq<Entry>) returns (log: SwitchLog)
    ensures fresh(log)
    ensures log.history == Newest(Merged(RecordableOnes(events)))
    ensures Merged(log.history) == log.history
  {
    log := new SwitchLog();
    for i := 0 to |events|
      invariant fresh(log) && log.Valid()
      invariant log.history == Newest(Merged(RecordableOnes(events[..i])))
      invariant NoTwins(Merged(RecordableOnes(events[..i])))
    {
      var e := events[i];
      var so := RecordableOnes(events[..i]);
      assert Init(events[..i + 1]) == events[..i] && Last(events[..i + 1]) == e;
      assert RecordableOnes(events[..i + 1]) == if Recordable(e) then so + [e] else so + [];
      assert so + [] == so;
      if Recordable(e) {
        assert Init(so + [e]) == so && Last(so + [e]) == e;
        PushNewest(Merged(so), e);
        PushKeeps(Merged(so), e);
      }
      log.RecordUpstreamSwitch(e);
    }
    assert events[..|events|] == events;
    MergeIdempotent(log.history);
  }
}
