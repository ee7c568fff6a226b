/** `process_global_content_generation`: the nested loops over ranked
    countries, keywords and content types, with a fixed chain of stages per
    unit. The collaborators are oracles: `designOk(c)` says whether fetching
    the design of country `c` succeeds, and `ok(n, s)` whether stage `s` of
    the `n`-th unit attempted succeeds. */
module Pipeline {
  import opened Text
  import opened RevenueOptimizer
  import opened Analytics

  /** The calls of one unit's `try` block, in source order. */
  datatype Stage = Generate | OptimizeSeo | Monetize | ApplyDesign | Save | Publish

  /** What a unit does: call a stage, or sleep after succeeding. */
  datatype Event = Call(stage: Stage) | Sleep

  /** One `(country, keyword, content_type)` iteration. */
  datatype WorkUnit = WorkUnit(country: string, keyword: string, contentType: string)

  // ---------------------------------------------------------------------------
  // One unit
  // ---------------------------------------------------------------------------

  /** The stages a unit goes through when nothing fails. */
  function RequiredStages(seo: bool, publish: bool): (r: seq<Stage>)
    ensures 4 <= |r| <= 6
    ensures OptimizeSeo in r <==> seo
    ensures Publish in r <==> publish
    ensures r[0] == Generate && Monetize in r && ApplyDesign in r && Save in r
  {
    [Generate] + (if seo then [OptimizeSeo] else []) + [Monetize, ApplyDesign, Save]
      + (if publish then [Publish] else [])
  }

  /** Running `chain` for unit `n`: each stage is called, and the first one
      that fails ends the unit; the unit sleeps if all of them succeed. */
  function ChainEvents(n: nat, chain: seq<Stage>, ok: (nat, Stage) -> bool): seq<Event>
    decreases |chain|
  {
    if chain == [] then [Sleep]
    else [Call(chain[0])] + (if ok(n, chain[0]) then ChainEvents(n, chain[1..], ok) else [])
  }

  /** Every stage of `chain` succeeds for unit `n`. */
  predicate ChainSucceeds(n: nat, chain: seq<Stage>, ok: (nat, Stage) -> bool)
    decreases |chain|
  {
    chain == [] || (ok(n, chain[0]) && ChainSucceeds(n, chain[1..], ok))
  }

  function UnitEvents(n: nat, seo: bool, publish: bool, ok: (nat, Stage) -> bool): seq<Event> {
    ChainEvents(n, RequiredStages(seo, publish), ok)
  }

  predicate UnitSucceeds(n: nat, seo: bool, publish: bool, ok: (nat, Stage) -> bool) {
    ChainSucceeds(n, RequiredStages(seo, publish), ok)
  }

  /** The calls of the stages of `chain`, in order. */
  function Calls(chain: seq<Stage>): (r: seq<Event>)
    ensures |r| == |chain| && forall i :: 0 <= i < |chain| ==> r[i] == Call(chain[i])
  {
    seq(|chain|, i requires 0 <= i < |chain| => Call(chain[i]))
  }

  /** A unit succeeds exactly when each of its stages does. */
  lemma {:induction false} ChainSucceedsIff(n: nat, chain: seq<Stage>, ok: (nat, Stage) -> bool)
    ensures ChainSucceeds(n, chain, ok) <==> forall i :: 0 <= i < |chain| ==> ok(n, chain[i])
    decreases |chain|
  {
    if chain != [] {
      ChainSucceedsIff(n, chain[1..], ok);
      assert forall i :: 1 <= i < |chain| ==> chain[i] == chain[1..][i - 1];
    }
  }

  /** A failure at `m` in the rest of a chain whose first stage succeeds is
      a failure at `m + 1` in the chain. */
  lemma ChainFailStep(n: nat, chain: seq<Stage>, ok: (nat, Stage) -> bool, m: nat)
    requires chain != [] && ok(n, chain[0]) && m < |chain| - 1
    requires !ok(n, chain[1..][m]) && (forall i :: 0 <= i < m ==> ok(n, chain[1..][i]))
    requires ChainEvents(n, chain[1..], ok) == Calls(chain[1..][..m + 1])
    ensures !ok(n, chain[m + 1]) && (forall i :: 0 <= i < m + 1 ==> ok(n, chain[i]))
    ensures ChainEvents(n, chain, ok) == Calls(chain[..(m + 1) + 1])
  {
    var rest := chain[1..];
    assert chain[..m + 2] == [chain[0]] + rest[..m + 1];
    assert Calls(chain[..m + 2]) == [Call(chain[0])] + Calls(rest[..m + 1]);
    forall i | 1 <= i < m + 1 ensures ok(n, chain[i]) {
      assert chain[i] == rest[i - 1];
    }
  }

  /** A successful unit calls every stage in order and then sleeps; a failed
      one calls the stages up to the first failing one and stops there. */
  lemma {:induction false} ChainEventsShape(n: nat, chain: seq<Stage>, ok: (nat, Stage) -> bool)
    ensures ChainSucceeds(n, chain, ok) ==> ChainEvents(n, chain, ok) == Calls(chain) + [Sleep]
    ensures !ChainSucceeds(n, chain, ok) ==>
              exists m :: 0 <= m < |chain| && !ok(n, chain[m])
                && (forall i :: 0 <= i < m ==> ok(n, chain[i]))
                && ChainEvents(n, chain, ok) == Calls(chain[..m + 1])
    decreases |chain|
  {
    if chain != [] {
      var rest := chain[1..];
      ChainEventsShape(n, rest, ok);
      if !ok(n, chain[0]) {
        assert chain[..1] == [chain[0]];
        assert ChainEvents(n, chain, ok) == Calls(chain[..0 + 1]);
      } else if ChainSucceeds(n, rest, ok) {
        assert Calls(chain) == [Call(chain[0])] + Calls(rest);
      } else {
        var m :| 0 <= m < |rest| && !ok(n, rest[m]) && (forall i :: 0 <= i < m ==> ok(n, rest[i]))
                 && ChainEvents(n, rest, ok) == Calls(rest[..m + 1]);
        ChainFailStep(n, chain, ok, m);
      }
    }
  }

  /** A unit sleeps iff it succeeds, and it never calls a stage outside its chain. */
  lemma {:induction false} ChainEventsCalls(n: nat, chain: seq<Stage>, ok: (nat, Stage) -> bool, s: Stage)
    ensures Sleep in ChainEvents(n, chain, ok) <==> ChainSucceeds(n, chain, ok)
    ensures Call(s) in ChainEvents(n, chain, ok) ==> s in chain
    decreases |chain|
  {
    if chain != [] {
      ChainEventsCalls(n, chain[1..], ok, s);
    }
  }

  /** The SEO and publish stages are called only when enabled, and the unit
      sleeps exactly when it succeeds. */
  lemma UnitOptionalStages(n: nat, seo: bool, publish: bool, ok: (nat, Stage) -> bool)
    ensures Call(OptimizeSeo) in UnitEvents(n, seo, publish, ok) ==> seo
    ensures Call(Publish) in UnitEvents(n, seo, publish, ok) ==> publish
    ensures Sleep in UnitEvents(n, seo, publish, ok) <==> UnitSucceeds(n, seo, publish, ok)
  {
    ChainEventsCalls(n, RequiredStages(seo, publish), ok, OptimizeSeo);
    ChainEventsCalls(n, RequiredStages(seo, publish), ok, Publish);
  }

  /** A unit's outcome depends on its own oracle answers only. */
  lemma {:induction false} ChainIsolated(n: nat, chain: seq<Stage>, ok1: (nat, Stage) -> bool, ok2: (nat, Stage) -> bool)
    requires forall s :: ok1(n, s) == ok2(n, s)
    ensures ChainEvents(n, chain, ok1) == ChainEvents(n, chain, ok2)
    ensures ChainSucceeds(n, chain, ok1) == ChainSucceeds(n, chain, ok2)
    decreases |chain|
  {
    if chain != [] {
      ChainIsolated(n, chain[1..], ok1, ok2);
    }
  }

  /** A stage that succeeds moves on to the rest of the chain. */
  lemma ChainPass(n: nat, done: seq<Event>, chain: seq<Stage>, ok: (nat, Stage) -> bool)
    requires chain != [] && ok(n, chain[0])
    ensures done + ChainEvents(n, chain, ok) == (done + [Call(chain[0])]) + ChainEvents(n, chain[1..], ok)
    ensures ChainSucceeds(n, chain, ok) == ChainSucceeds(n, chain[1..], ok)
  {
    assert ChainEvents(n, chain, ok) == [Call(chain[0])] + ChainEvents(n, chain[1..], ok);
  }

  /** A stage that fails is the last call of the unit. */
  lemma ChainStop(n: nat, done: seq<Event>, chain: seq<Stage>, ok: (nat, Stage) -> bool)
    requires chain != [] && !ok(n, chain[0])
    ensures done + ChainEvents(n, chain, ok) == done + [Call(chain[0])]
    ensures !ChainSucceeds(n, chain, ok)
  {
  }

  /** The `try` block of one unit; an exception is a failing stage. */
  method RunUnit(n: nat, seo: bool, publish: bool, ok: (nat, Stage) -> bool) returns (events: seq<Event>, success: bool)
    ensures events == UnitEvents(n, seo, publish, ok)
    ensures success == UnitSucceeds(n, seo, publish, ok)
  {
    // `rest` is what remains of the chain: the unit's events are always
    // `events` followed by the events of `rest`.
    ghost var rest := RequiredStages(seo, publish);
    success := false;
    events := [];
    assert events + ChainEvents(n, rest, ok) == ChainEvents(n, rest, ok);
    if !ok(n, Generate) {
      ChainStop(n, events, rest, ok);
      events := events + [Call(Generate)];
      return;
    }
    ChainPass(n, events, rest, ok);
    events := events + [Call(Generate)];
    rest := rest[1..];
    if seo {
      if !ok(n, OptimizeSeo) {
        ChainStop(n, events, rest, ok);
        events := events + [Call(OptimizeSeo)];
        return;
      }
      ChainPass(n, events, rest, ok);
      events := events + [Call(OptimizeSeo)];
      rest := rest[1..];
    }
    assert rest[0] == Monetize;
    if !ok(n, Monetize) {
      ChainStop(n, events, rest, ok);
      events := events + [Call(Monetize)];
      return;
    }
    ChainPass(n, events, rest, ok);
    events := events + [Call(Monetize)];
    rest := rest[1..];
    assert rest[0] == ApplyDesign;
    if !ok(n, ApplyDesign) {
      ChainStop(n, events, rest, ok);
      events := events + [Call(ApplyDesign)];
      return;
    }
    ChainPass(n, events, rest, ok);
    events := events + [Call(ApplyDesign)];
    rest := rest[1..];
    assert rest[0] == Save;
    if !ok(n, Save) {
      ChainStop(n, events, rest, ok);
      events := events + [Call(Save)];
      return;
    }
    ChainPass(n, events, rest, ok);
    events := events + [Call(Save)];
    rest := rest[1..];
    if publish {
      assert rest == [Publish];
      if !ok(n, Publish) {
        ChainStop(n, events, rest, ok);
        events := events + [Call(Publish)];
        return;
      }
      ChainPass(n, events, rest, ok);
      events := events + [Call(Publish)];
      rest := rest[1..];
    }
    assert rest == [];
    success := true;
    events := events + [Sleep];
  }

  // ---------------------------------------------------------------------------
  // The loops
  // ---------------------------------------------------------------------------

  /** The units of one keyword, by content type. */
  function TypeUnits(c: string, k: string, ts: seq<string>): (r: seq<WorkUnit>)
    ensures |r| == |ts| && forall l :: 0 <= l < |ts| ==> r[l] == WorkUnit(c, k, ts[l])
  {
    seq(|ts|, l requires 0 <= l < |ts| => WorkUnit(c, k, ts[l]))
  }

  /** The units of one country: keyword-major, then by content type. */
  function CountryUnits(c: string, ks: seq<string>, ts: seq<string>): seq<WorkUnit>
    decreases |ks|
  {
    if ks == [] then [] else CountryUnits(c, ks[..|ks| - 1], ts) + TypeUnits(c, ks[|ks| - 1], ts)
  }

  /** The units of the countries `cs`, in order. */
  function Units(cs: seq<string>, ks: seq<string>, ts: seq<string>): seq<WorkUnit>
    decreases |cs|
  {
    if cs == [] then [] else Units(cs[..|cs| - 1], ks, ts) + CountryUnits(cs[|cs| - 1], ks, ts)
  }

  /** How many leading countries get their design fetched without failure. */
  function Reach(cs: seq<string>, designOk: string -> bool): (r: nat)
    ensures r <= |cs|
    decreases |cs|
  {
    if cs == [] || !designOk(cs[0]) then 0 else 1 + Reach(cs[1..], designOk)
  }

  /** `Reach` is the index of the first failing design fetch, or the length. */
  lemma {:induction false} ReachIsFirstFailure(cs: seq<string>, designOk: string -> bool)
    ensures forall i :: 0 <= i < Reach(cs, designOk) ==> designOk(cs[i])
    ensures Reach(cs, designOk) < |cs| ==> !designOk(cs[Reach(cs, designOk)])
    decreases |cs|
  {
    if cs != [] && designOk(cs[0]) {
      ReachIsFirstFailure(cs[1..], designOk);
      assert forall i :: 1 <= i < |cs| ==> cs[i] == cs[1..][i - 1];
    }
  }

  /** The first failing fetch, found from the left, is `Reach`. */
  lemma {:induction false} ReachAt(cs: seq<string>, designOk: string -> bool, r: nat)
    requires r <= |cs| && forall i :: 0 <= i < r ==> designOk(cs[i])
    requires r < |cs| ==> !designOk(cs[r])
    ensures Reach(cs, designOk) == r
    decreases |cs|
  {
    if cs != [] && r > 0 {
      assert forall i :: 0 <= i < r - 1 ==> cs[1..][i] == cs[i + 1];
      ReachAt(cs[1..], designOk, r - 1);
    }
  }

  /** The number of the first `m` units that succeed. */
  function Completed(m: nat, seo: bool, publish: bool, ok: (nat, Stage) -> bool): (r: nat)
    ensures r <= m
  {
    if m == 0 then 0 else Completed(m - 1, seo, publish, ok) + (if UnitSucceeds(m - 1, seo, publish, ok) then 1 else 0)
  }

  /** All units succeed iff the count is their number; none iff it is 0. */
  lemma {:induction false} CompletedExtremes(m: nat, seo: bool, publish: bool, ok: (nat, Stage) -> bool)
    ensures Completed(m, seo, publish, ok) == m <==> forall j :: 0 <= j < m ==> UnitSucceeds(j, seo, publish, ok)
    ensures Completed(m, seo, publish, ok) == 0 <==> forall j :: 0 <= j < m ==> !UnitSucceeds(j, seo, publish, ok)
  {
    if m > 0 {
      CompletedExtremes(m - 1, seo, publish, ok);
    }
  }

  /** `x * y` grows with `x`. */
  lemma MulMonotone(x: nat, x': nat, y: nat)
    requires x <= x'
    ensures x * y <= x' * y
  {
  }

  /** One more row of `k` adds `k`. */
  lemma MulStep(n: nat, k: nat)
    requires n > 0
    ensures (n - 1) * k + k == n * k
  {
  }

  /** A country contributes one unit per keyword and content type. */
  lemma {:induction false} CountryUnitsLength(c: string, ks: seq<string>, ts: seq<string>)
    ensures |CountryUnits(c, ks, ts)| == |ks| * |ts|
    decreases |ks|
  {
    if ks != [] {
      CountryUnitsLength(c, ks[..|ks| - 1], ts);
      assert (|ks| - 1) * |ts| + |ts| == |ks| * |ts|;
    }
  }

  /** The run has one unit per country, keyword and content type. */
  lemma {:induction false} UnitsLength(cs: seq<string>, ks: seq<string>, ts: seq<string>)
    ensures |Units(cs, ks, ts)| == |cs| * (|ks| * |ts|)
    decreases |cs|
  {
    if cs != [] {
      UnitsLength(cs[..|cs| - 1], ks, ts);
      CountryUnitsLength(cs[|cs| - 1], ks, ts);
      var k := |ks| * |ts|;
      assert |Units(cs, ks, ts)| == |Units(cs[..|cs| - 1], ks, ts)| + k;
      MulStep(|cs|, k);
    }
  }

  /** Unit `j * |ts| + l` of a country is keyword `j` with content type `l`. */
  lemma {:induction false} CountryUnitsAt(c: string, ks: seq<string>, ts: seq<string>, j: nat, l: nat)
    requires j < |ks| && l < |ts|
    ensures j * |ts| + l < |CountryUnits(c, ks, ts)|
    ensures CountryUnits(c, ks, ts)[j * |ts| + l] == WorkUnit(c, ks[j], ts[l])
    decreases |ks|
  {
    var init := ks[..|ks| - 1];
    CountryUnitsLength(c, ks, ts);
    CountryUnitsLength(c, init, ts);
    assert |CountryUnits(c, init, ts)| == (|ks| - 1) * |ts|;
    if j < |ks| - 1 {
      CountryUnitsAt(c, init, ts, j, l);
      assert init[j] == ks[j];
    } else {
      assert j * |ts| == (|ks| - 1) * |ts|;
    }
    MulMonotone(j + 1, |ks|, |ts|);
  }

  /** Every unit pairs a processed country with a requested keyword and type. */
  lemma {:induction false} UnitsMembers(cs: seq<string>, ks: seq<string>, ts: seq<string>, w: WorkUnit)
    requires w in Units(cs, ks, ts)
    ensures w.country in cs && w.keyword in ks && w.contentType in ts
    decreases |cs|
  {
    var init := cs[..|cs| - 1];
    if w in Units(init, ks, ts) {
      UnitsMembers(init, ks, ts, w);
    } else {
      CountryUnitsMembers(cs[|cs| - 1], ks, ts, w);
    }
  }

  /** The units of a prefix of the countries pair those countries with
      the requested keywords and content types. */
  lemma ReachedUnitsMembers(cs: seq<string>, reach: nat, ks: seq<string>, ts: seq<string>)
    requires reach <= |cs|
    ensures forall u :: u in Units(cs[..reach], ks, ts) ==>
              u.country in cs && u.keyword in ks && u.contentType in ts
  {
    forall u | u in Units(cs[..reach], ks, ts)
      ensures u.country in cs && u.keyword in ks && u.contentType in ts
    {
      UnitsMembers(cs[..reach], ks, ts, u);
    }
  }

  lemma {:induction false} CountryUnitsMembers(c: string, ks: seq<string>, ts: seq<string>, w: WorkUnit)
    requires w in CountryUnits(c, ks, ts)
    ensures w.country == c && w.keyword in ks && w.contentType in ts
    decreases |ks|
  {
    var init := ks[..|ks| - 1];
    if w in CountryUnits(c, init, ts) {
      CountryUnitsMembers(c, init, ts, w);
    } else {
      var l :| 0 <= l < |ts| && TypeUnits(c, ks[|ks| - 1], ts)[l] == w;
    }
  }

  /** Whatever prefix of the countries is reached, at most one unit per
      country, keyword and content type completes, and none at all when
      there is no keyword or no content type. */
  lemma CompletedBound(cs: seq<string>, reach: nat, ks: seq<string>, ts: seq<string>,
                       seo: bool, publish: bool, ok: (nat, Stage) -> bool)
    requires reach <= |cs|
    ensures Completed(|Units(cs[..reach], ks, ts)|, seo, publish, ok) <= |cs| * (|ks| * |ts|)
    ensures ks == [] || ts == [] ==> Completed(|Units(cs[..reach], ks, ts)|, seo, publish, ok) == 0
  {
    UnitsLength(cs[..reach], ks, ts);
    MulMonotone(reach, |cs|, |ks| * |ts|);
  }

  /** `log[j]` is the event list of the `j`-th unit attempted. */
  predicate RunLog(log: seq<seq<Event>>, seo: bool, publish: bool, ok: (nat, Stage) -> bool) {
    forall j :: 0 <= j < |log| ==> log[j] == UnitEvents(j, seo, publish, ok)
  }

  lemma RunLogSnoc(log: seq<seq<Event>>, events: seq<Event>, seo: bool, publish: bool, ok: (nat, Stage) -> bool)
    requires RunLog(log, seo, publish, ok) && events == UnitEvents(|log|, seo, publish, ok)
    ensures RunLog(log + [events], seo, publish, ok)
  {
  }

  lemma AppendAssoc<T>(a: seq<T>, b: seq<T>, c: seq<T>)
    ensures (a + b) + c == a + (b + c)
  {
  }

  /** One more content type extends the keyword's units by one. */
  lemma TypeUnitsSnoc(c: string, k: string, ts: seq<string>, l: nat)
    requires l < |ts|
    ensures TypeUnits(c, k, ts[..l + 1]) == TypeUnits(c, k, ts[..l]) + [WorkUnit(c, k, ts[l])]
  {
  }

  /** One more keyword extends the country's units by that keyword's. */
  lemma CountryUnitsSnoc(c: string, ks: seq<string>, ts: seq<string>, j: nat)
    requires j < |ks|
    ensures CountryUnits(c, ks[..j + 1], ts) == CountryUnits(c, ks[..j], ts) + TypeUnits(c, ks[j], ts)
  {
    assert ks[..j + 1][..j] == ks[..j];
  }

  /** One more country extends the run's units by that country's. */
  lemma UnitsSnoc(cs: seq<string>, ks: seq<string>, ts: seq<string>, i: nat)
    requires i < |cs|
    ensures Units(cs[..i + 1], ks, ts) == Units(cs[..i], ks, ts) + CountryUnits(cs[i], ks, ts)
  {
    assert cs[..i + 1][..i] == cs[..i];
  }

  /** What the run did: the units it attempted, in order, and the events of
      each. */
  datatype Report = Report(
    countries: seq<string>,
    fetched: seq<string>,
    attempted: seq<WorkUnit>,
    unitEvents: seq<seq<Event>>,
    totalGenerated: nat,
    aborted: bool)

  /** The bookkeeping of a run after `|attempted|` units: one event list
      per unit, and the number of units that succeeded. */
  predicate Progress(attempted: seq<WorkUnit>, log: seq<seq<Event>>, total: nat,
                     seo: bool, publish: bool, ok: (nat, Stage) -> bool) {
    |log| == |attempted| && RunLog(log, seo, publish, ok) && total == Completed(|attempted|, seo, publish, ok)
  }

  /** Running one more unit keeps the bookkeeping right. */
  lemma ProgressStep(attempted: seq<WorkUnit>, log: seq<seq<Event>>, total: nat,
                     seo: bool, publish: bool, ok: (nat, Stage) -> bool,
                     u: WorkUnit, events: seq<Event>, success: bool)
    requires Progress(attempted, log, total, seo, publish, ok)
    requires events == UnitEvents(|attempted|, seo, publish, ok)
    requires success == UnitSucceeds(|attempted|, seo, publish, ok)
    ensures Progress(attempted + [u], log + [events], total + (if success then 1 else 0), seo, publish, ok)
  {
    RunLogSnoc(log, events, seo, publish, ok);
  }

  /** The content-type loop of one keyword. */
  method ProcessKeyword(country: string, keyword: string, contentTypes: seq<string>,
                        seo: bool, publish: bool, ok: (nat, Stage) -> bool,
                        attempted0: seq<WorkUnit>, log0: seq<seq<Event>>, total0: nat)
    returns (attempted: seq<WorkUnit>, log: seq<seq<Event>>, total: nat)
    requires Progress(attempted0, log0, total0, seo, publish, ok)
    ensures attempted == attempted0 + TypeUnits(country, keyword, contentTypes)
    ensures Progress(attempted, log, total, seo, publish, ok)
  {
    attempted, log, total := attempted0, log0, total0;
    var ti := 0;
    while ti < |contentTypes|
      invariant 0 <= ti <= |contentTypes|
      invariant attempted == attempted0 + TypeUnits(country, keyword, contentTypes[..ti])
      invariant Progress(attempted, log, total, seo, publish, ok)
    {
      var unit := WorkUnit(country, keyword, contentTypes[ti]);
      var events, success := RunUnit(|attempted|, seo, publish, ok);
      ProgressStep(attempted, log, total, seo, publish, ok, unit, events, success);
      TypeUnitsSnoc(country, keyword, contentTypes, ti);
      AppendAssoc(attempted0, TypeUnits(country, keyword, contentTypes[..ti]), [unit]);
      if success {
        total := total + 1;
      }
      attempted := attempted + [unit];
      log := log + [events];
      ti := ti + 1;
    }
    assert contentTypes[..|contentTypes|] == contentTypes;
  }

  /** The keyword loop of one country. */
  method ProcessCountry(country: string, keywords: seq<string>, contentTypes: seq<string>,
                        seo: bool, publish: bool, ok: (nat, Stage) -> bool,
                        attempted0: seq<WorkUnit>, log0: seq<seq<Event>>, total0: nat)
    returns (attempted: seq<WorkUnit>, log: seq<seq<Event>>, total: nat)
    requires Progress(attempted0, log0, total0, seo, publish, ok)
    ensures attempted == attempted0 + CountryUnits(country, keywords, contentTypes)
    ensures Progress(attempted, log, total, seo, publish, ok)
  {
    attempted, log, total := attempted0, log0, total0;
    var ki := 0;
    while ki < |keywords|
      invariant 0 <= ki <= |keywords|
      invariant attempted == attempted0 + CountryUnits(country, keywords[..ki], contentTypes)
      invariant Progress(attempted, log, total, seo, publish, ok)
    {
      attempted, log, total := ProcessKeyword(country, keywords[ki], contentTypes, seo, publish, ok,
                                              attempted, log, total);
      CountryUnitsSnoc(country, keywords, contentTypes, ki);
      AppendAssoc(attempted0, CountryUnits(country, keywords[..ki], contentTypes),
                  TypeUnits(country, keywords[ki], contentTypes));
      ki := ki + 1;
    }
    assert keywords[..|keywords|] == keywords;
  }

  /** The country loop stops at `Reach`: at the first failing design fetch,
      or after the last country. */
  lemma RunStopsAt(sorted: seq<string>, designOk: string -> bool, ci: nat, aborted: bool)
    requires ci <= |sorted| && forall i :: 0 <= i < ci ==> designOk(sorted[i])
    requires aborted ==> ci < |sorted| && !designOk(sorted[ci])
    requires !aborted ==> ci == |sorted|
    ensures Reach(sorted, designOk) == ci
    ensures aborted == (ci < |sorted|)
  {
    ReachAt(sorted, designOk, ci);
  }

  /** The country loop: fetch the design, then run the country's units; a
      failed fetch leaves the loop. */
  method CountryLoop(sorted: seq<string>, keywords: seq<string>, contentTypes: seq<string>,
                     seo: bool, publish: bool, designOk: string -> bool, ok: (nat, Stage) -> bool)
    returns (fetched: seq<string>, attempted: seq<WorkUnit>, log: seq<seq<Event>>, total: nat, aborted: bool)
    ensures aborted == (Reach(sorted, designOk) < |sorted|)
    ensures fetched == sorted[..if aborted then Reach(sorted, designOk) + 1 else Reach(sorted, designOk)]
    ensures attempted == Units(sorted[..Reach(sorted, designOk)], keywords, contentTypes)
    ensures Progress(attempted, log, total, seo, publish, ok)
  {
    fetched, attempted, log, total, aborted := [], [], [], 0, false;
    var ci := 0;
    while ci < |sorted|
      invariant 0 <= ci <= |sorted|
      invariant forall i :: 0 <= i < ci ==> designOk(sorted[i])
      invariant fetched == sorted[..ci]
      invariant attempted == Units(sorted[..ci], keywords, contentTypes)
      invariant Progress(attempted, log, total, seo, publish, ok)
      invariant !aborted
    {
      var country := sorted[ci];
      assert sorted[..ci + 1] == sorted[..ci] + [country];
      fetched := fetched + [country];
      if !designOk(country) {
        aborted := true;
        break;
      }
      attempted, log, total := ProcessCountry(country, keywords, contentTypes, seo, publish, ok,
                                              attempted, log, total);
      UnitsSnoc(sorted, keywords, contentTypes, ci);
      ci := ci + 1;
    }
    RunStopsAt(sorted, designOk, ci, aborted);
  }

  /** The countries of a run, with what their units amount to: a counter
      within the number of units, and units drawn from the inputs. */
  method ProcessCountries(sorted: seq<string>, keywords: seq<string>, contentTypes: seq<string>,
                          seo: bool, publish: bool, designOk: string -> bool, ok: (nat, Stage) -> bool)
    returns (fetched: seq<string>, attempted: seq<WorkUnit>, log: seq<seq<Event>>, total: nat, aborted: bool)
    ensures aborted == (Reach(sorted, designOk) < |sorted|)
    ensures fetched == sorted[..if aborted then Reach(sorted, designOk) + 1 else Reach(sorted, designOk)]
    ensures attempted == Units(sorted[..Reach(sorted, designOk)], keywords, contentTypes)
    ensures Progress(attempted, log, total, seo, publish, ok)
    ensures total <= |sorted| * (|keywords| * |contentTypes|)
    ensures keywords == [] || contentTypes == [] ==> total == 0
    ensures forall u :: u in attempted ==>
              u.country in sorted && u.keyword in keywords && u.contentType in contentTypes
  {
    fetched, attempted, log, total, aborted := CountryLoop(sorted, keywords, contentTypes, seo, publish, designOk, ok);
    CompletedBound(sorted, Reach(sorted, designOk), keywords, contentTypes, seo, publish, ok);
    ReachedUnitsMembers(sorted, Reach(sorted, designOk), keywords, contentTypes);
  }

  /** The whole run: countries in rank order, a design fetch per country
      (whose failure ends the run through the outer handler, before the
      metrics are updated), then every keyword and content type, each unit
      isolated from the others' failures. */
  method ProcessGlobalContentGeneration(
    optimizer: Optimizer, tracker: RevenueTracker,
    keywords: seq<string>, targetCountries: seq<string>, contentTypes: seq<string>,
    autoPublish: bool, seoOptimization: bool,
    designOk: string -> bool, ok: (nat, Stage) -> bool) returns (report: Report)
    requires optimizer.Valid()
    modifies tracker
    ensures report.countries == optimizer.SortCountriesByRevenue(targetCountries)
    ensures var reach := Reach(report.countries, designOk);
            && report.aborted == (reach < |report.countries|)
            && report.fetched == report.countries[..if report.aborted then reach + 1 else reach]
            && report.attempted == Units(report.countries[..reach], keywords, contentTypes)
    ensures Progress(report.attempted, report.unitEvents, report.totalGenerated, seoOptimization, autoPublish, ok)
    ensures report.totalGenerated <= |report.countries| * (|keywords| * |contentTypes|)
    ensures forall u :: u in report.attempted ==>
              u.country in Keys(optimizer.table) && u.country in targetCountries
    ensures tracker.revenueData == (if report.aborted then old(tracker.revenueData)
                                    else Bumped(old(tracker.revenueData), report.totalGenerated, report.countries))
    ensures tracker.totalRevenue == old(tracker.totalRevenue)
  {
    var sorted := optimizer.SortCountriesByRevenue(targetCountries);
    var fetched, attempted, log, total, aborted :=
      ProcessCountries(sorted, keywords, contentTypes, seoOptimization, autoPublish, designOk, ok);
    if !aborted {
      tracker.UpdateContentMetrics(total, sorted);
    }
    report := Report(sorted, fetched, attempted, log, total, aborted);
  }
}
