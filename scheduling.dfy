/** Sector lookup and the batch scheduler over regions:
    util.make_param_sector, util.parse_sector, util.get_sector and
    util.get_sector_list (gathering_data/util.py:72-78, 99-120, 144-147). */
module Scheduling {
  import opened Common
  import opened Model

  /** make_param_sector(loc) */
  function MakeParamSector(loc: Location): (p: Params)
    ensures p.Keys == {"centerLat", "centerLon", "zoom"}
    ensures p["centerLat"] == loc.lat && p["centerLon"] == loc.lon && p["zoom"] == loc.zoom
  {
    map["centerLat" := loc.lat, "centerLon" := loc.lon, "zoom" := loc.zoom]
  }

  /** parse_sector(sector_json); the centre gets the default zoom. */
  function ParseSector(v: Value, zoom: Value): (r: Result<Sector>)
    ensures !v.JObj? ==> r == Failure(TypeError)
    ensures r.Success? <==>
              && v.JObj? && "sectorName" in v.fields && "centerLat" in v.fields && "centerLon" in v.fields
              && "sectorNo" in v.fields && "cityName" in v.fields && "divisionName" in v.fields
              && "cortarVertexLists" in v.fields
    ensures v.JObj? && r.Failure? ==> r.error.KeyError? && r.error.key !in v.fields
    ensures r.Success? ==>
              var m := v.fields;
              r.value == Sector(m["sectorName"], Location(m["centerLat"], m["centerLon"], zoom),
                                m["sectorNo"], m["cityName"], m["divisionName"], m["cortarVertexLists"])
  {
    var name :- Get(v, "sectorName");
    var lat :- Get(v, "centerLat");
    var lon :- Get(v, "centerLon");
    var no :- Get(v, "sectorNo");
    var city :- Get(v, "cityName");
    var division :- Get(v, "divisionName");
    var boundary :- Get(v, "cortarVertexLists");
    Success(Sector(name, Location(lat, lon, zoom), no, city, division, boundary))
  }

  /** get_sector(loc): one request to the sector endpoint, then parse_sector.
      A failed request and a malformed answer both fail. */
  function GetSector(loc: Location, env: Env): (r: Result<Sector>)
    ensures var res := env.http(Request(Cortars, MakeParamSector(loc)));
            r == if res.Failure? then Failure(res.error) else ParseSector(res.value, env.defaultZoom)
  {
    var res :- env.http(Request(Cortars, MakeParamSector(loc)));
    ParseSector(res, env.defaultZoom)
  }

  // ---------------------------------------------------------------------
  // get_sector_list

  /** A sleep the scheduler performs: after every `interval`-th success
      (sleep(delay)) or after a failure (get_sleep(20)). */
  datatype Pause = RatePause(seconds: int) | ErrorPause(seconds: int)

  const ErrorDelay: int := 20

  /** The scheduler's state after some regions. */
  datatype Batch = Batch(sectors: seq<Sector>, cancel: seq<Region>, loading: int, pauses: seq<Pause>)

  /** One iteration of the `for reg in loop(regions)` body. `sleep(delay)`
      sits inside the `try`: for a negative delay it raises ValueError
      after the sector was appended and the counter raised, so the region
      is recorded as cancelled as well, the error pause follows, and the
      counter is not reset. */
  function Step(b: Batch, reg: Region, delay: int, interval: int, env: Env): Batch {
    match GetSector(reg.loc, env)
    case Success(sector) =>
      if b.loading + 1 == interval then
        if delay >= 0 then Batch(b.sectors + [sector], b.cancel, 0, b.pauses + [RatePause(delay)])
        else Batch(b.sectors + [sector], b.cancel + [reg], interval, b.pauses + [ErrorPause(ErrorDelay)])
      else Batch(b.sectors + [sector], b.cancel, b.loading + 1, b.pauses)
    case Failure(_) =>
      Batch(b.sectors, b.cancel + [reg], b.loading, b.pauses + [ErrorPause(ErrorDelay)])
  }

  /** The state after the loop has visited `regs`. */
  function Run(regs: seq<Region>, delay: int, interval: int, env: Env): Batch {
    if regs == [] then Batch([], [], 0, [])
    else Step(Run(regs[..|regs| - 1], delay, interval, env), regs[|regs| - 1], delay, interval, env)
  }

  /** get_sector_list(regions, delay, interval, loop): returns the sectors
      and the failed regions; the sleeps are returned as a trace. */
  method GetSectorList(regions: seq<Region>, delay: int, interval: int,
                       loop: seq<Region> -> seq<Region>, env: Env)
    returns (sectors: seq<Sector>, cancel: seq<Region>, pauses: seq<Pause>)
    ensures var b := Run(loop(regions), delay, interval, env);
            sectors == b.sectors && cancel == b.cancel && pauses == b.pauses
  {
    var regs := loop(regions);
    sectors, cancel, pauses := [], [], [];
    var loading := 0;
    for i := 0 to |regs|
      invariant Run(regs[..i], delay, interval, env) == Batch(sectors, cancel, loading, pauses)
    {
      var reg := regs[i];
      assert regs[..i + 1][..i] == regs[..i];
      var got := GetSector(reg.loc, env);
      if got.Success? {
        sectors := sectors + [got.value];
        loading := loading + 1;
        if loading == interval {
          if delay < 0 {
            // sleep raises ValueError, caught by the bare except
            cancel := cancel + [reg];
            pauses := pauses + [ErrorPause(ErrorDelay)];
          } else {
            pauses := pauses + [RatePause(delay)];
            loading := 0;
          }
        }
      } else {
        cancel := cancel + [reg];
        pauses := pauses + [ErrorPause(ErrorDelay)];
      }
    }
    assert regs[..|regs|] == regs;
  }

  // ---------------------------------------------------------------------
  // What the scheduler promises

  /** The sectors of the regions whose lookup succeeds, in order. */
  function Succeeded(regs: seq<Region>, env: Env): seq<Sector> {
    if regs == [] then []
    else
      var got := GetSector(regs[|regs| - 1].loc, env);
      Succeeded(regs[..|regs| - 1], env) + (if got.Success? then [got.value] else [])
  }

  /** The regions whose lookup fails, in order. */
  function Failed(regs: seq<Region>, env: Env): seq<Region> {
    if regs == [] then []
    else
      var reg := regs[|regs| - 1];
      Failed(regs[..|regs| - 1], env) + (if GetSector(reg.loc, env).Failure? then [reg] else [])
  }

  function RatePauses(ps: seq<Pause>): nat {
    if ps == [] then 0 else RatePauses(ps[..|ps| - 1]) + (if ps[|ps| - 1].RatePause? then 1 else 0)
  }

  function ErrorPauses(ps: seq<Pause>): nat {
    if ps == [] then 0 else ErrorPauses(ps[..|ps| - 1]) + (if ps[|ps| - 1].ErrorPause? then 1 else 0)
  }

  lemma {:induction false} PausesSnoc(ps: seq<Pause>, p: Pause)
    ensures RatePauses(ps + [p]) == RatePauses(ps) + (if p.RatePause? then 1 else 0)
    ensures ErrorPauses(ps + [p]) == ErrorPauses(ps) + (if p.ErrorPause? then 1 else 0)
  {
    assert (ps + [p])[..|ps|] == ps;
  }

  /** Every region's lookup either succeeds or fails. */
  lemma {:induction false} SucceededFailed(regs: seq<Region>, env: Env)
    ensures |Succeeded(regs, env)| + |Failed(regs, env)| == |regs|
  {
    if regs != [] {
      SucceededFailed(regs[..|regs| - 1], env);
    }
  }

  /** The sectors are those of the successful lookups, in input order, and
      no failure stops the loop. With a delay that sleep accepts, every
      region lands in exactly one of the two lists: its sector among the
      successes, or itself among the failures. */
  lemma {:induction false} RunPartitions(regs: seq<Region>, delay: int, interval: int, env: Env)
    ensures var b := Run(regs, delay, interval, env);
            && b.sectors == Succeeded(regs, env)
            && (delay >= 0 ==> b.cancel == Failed(regs, env) && |b.sectors| + |b.cancel| == |regs|)
  {
    SucceededFailed(regs, env);
    if regs != [] {
      RunPartitions(regs[..|regs| - 1], delay, interval, env);
    }
  }

  /** A region is among the failures exactly when its own lookup fails. */
  lemma {:induction false} FailedMember(regs: seq<Region>, env: Env, reg: Region)
    ensures reg in Failed(regs, env) <==> reg in regs && GetSector(reg.loc, env).Failure?
  {
    if regs != [] {
      FailedMember(regs[..|regs| - 1], env, reg);
      assert regs == regs[..|regs| - 1] + [regs[|regs| - 1]];
    }
  }

  lemma MulBounds(d: int, m: int)
    requires m > 0
    ensures d >= 1 ==> d * m >= m
    ensures d <= -1 ==> d * m <= -m
  {
    if d >= 1 {
      assert d * m == (d - 1) * m + m;
      assert (d - 1) * m >= 0;
    }
    if d <= -1 {
      assert d * m == (d + 1) * m - m;
      assert (d + 1) * m <= 0;
    }
  }

  lemma DivModUnique(a: int, m: int, q: int, r: int)
    requires m > 0 && 0 <= r < m && a == q * m + r
    ensures a / m == q && a % m == r
  {
    var d := q - a / m;
    assert d * m == q * m - (a / m) * m;
    MulBounds(d, m);
  }

  /** One more success: the counter either steps or wraps to zero. */
  lemma ModStep(n: nat, m: int)
    requires m > 0
    ensures n % m + 1 == m ==> (n + 1) % m == 0 && (n + 1) / m == n / m + 1
    ensures n % m + 1 != m ==> (n + 1) % m == n % m + 1 && (n + 1) / m == n / m
  {
    var q, r := n / m, n % m;
    if r + 1 == m {
      assert n + 1 == (q + 1) * m + 0;
      DivModUnique(n + 1, m, q + 1, 0);
    } else {
      DivModUnique(n + 1, m, q, r + 1);
    }
  }

  /** The counter and the trace after any number of iterations: with a
      delay sleep accepts, the counter counts the successes since the last
      rate pause; with a negative delay the first sleep raises, the reset
      is skipped, and the counter counts every success. */
  predicate Paced(b: Batch, delay: int, interval: int) {
    if delay >= 0 && interval > 0 then
      b.loading == |b.sectors| % interval && RatePauses(b.pauses) == |b.sectors| / interval
    else
      b.loading == |b.sectors| && RatePauses(b.pauses) == 0
  }

  lemma StepPaced(b: Batch, reg: Region, delay: int, interval: int, env: Env)
    requires Paced(b, delay, interval)
    ensures Paced(Step(b, reg, delay, interval, env), delay, interval)
  {
    PausesSnoc(b.pauses, RatePause(delay));
    PausesSnoc(b.pauses, ErrorPause(ErrorDelay));
    if GetSector(reg.loc, env).Success? && delay >= 0 && interval > 0 {
      ModStep(|b.sectors|, interval);
    }
  }

  /** Rate limiting: with a delay sleep accepts, the counter counts the
      successes since the last rate pause and a rate pause happens once per
      `interval` successes. With a non-positive interval, or a negative
      delay (sleep raises instead of pausing), the counter is the number of
      successes and no rate pause happens. */
  lemma {:induction false} RunPaces(regs: seq<Region>, delay: int, interval: int, env: Env)
    ensures var b := Run(regs, delay, interval, env);
            && (delay >= 0 && interval > 0 ==>
                  b.loading == |b.sectors| % interval && RatePauses(b.pauses) == |b.sectors| / interval)
            && (delay < 0 || interval <= 0 ==> b.loading == |b.sectors| && RatePauses(b.pauses) == 0)
  {
    if regs != [] {
      var init := regs[..|regs| - 1];
      RunPaces(init, delay, interval, env);
      StepPaced(Run(init, delay, interval, env), regs[|regs| - 1], delay, interval, env);
    }
  }

  /** With a negative delay, every failed region is cancelled, and one
      more once `interval` lookups have succeeded (RunSleepRaisesAt says
      which); before that the cancelled regions are exactly the failed
      ones. */
  lemma {:induction false} RunSleepRaises(regs: seq<Region>, delay: int, interval: int, env: Env)
    requires delay < 0
    ensures var b := Run(regs, delay, interval, env);
            && multiset(Failed(regs, env)) <= multiset(b.cancel)
            && |b.cancel| == |Failed(regs, env)| + (if 0 < interval <= |b.sectors| then 1 else 0)
            && (!(0 < interval <= |b.sectors|) ==> b.cancel == Failed(regs, env))
  {
    if regs != [] {
      var init := regs[..|regs| - 1];
      RunSleepRaises(init, delay, interval, env);
      RunPaces(init, delay, interval, env);
    }
  }

  /** With a negative delay, the region at index p whose lookup is the
      `interval`-th success is cancelled right after the failures before
      it: sleep raises there, and the counter never equals `interval`
      again, so every later cancellation is a failure. */
  lemma {:induction false} RunSleepRaisesAt(regs: seq<Region>, delay: int, interval: int, env: Env, p: nat)
    requires delay < 0 && p < |regs|
    requires GetSector(regs[p].loc, env).Success? && |Succeeded(regs[..p], env)| == interval - 1
    ensures Run(regs, delay, interval, env).cancel == Failed(regs[..p], env) + [regs[p]] + Failed(regs[p + 1..], env)
  {
    var n := |regs| - 1;
    var init := regs[..n];
    if p < n {
      assert init[..p] == regs[..p];
      assert init[p + 1..] == regs[p + 1..n];
      RunSleepRaisesAt(init, delay, interval, env, p);
      SleepRaisedBefore(regs, delay, interval, env, p, n);
    } else {
      SleepRaisedLast(regs, delay, interval, env, n);
    }
  }

  /** The inductive step of `RunSleepRaisesAt` when the raising region is not
      the last one: by then the counter is past `interval`, so the last region
      is cancelled only when its lookup fails. */
  lemma SleepRaisedBefore(regs: seq<Region>, delay: int, interval: int, env: Env, p: nat, n: nat)
    requires delay < 0 && p < n == |regs| - 1
    requires GetSector(regs[p].loc, env).Success? && |Succeeded(regs[..p], env)| == interval - 1
    requires Run(regs[..n], delay, interval, env).cancel == Failed(regs[..p], env) + [regs[p]] + Failed(regs[p + 1..n], env)
    ensures Run(regs, delay, interval, env).cancel == Failed(regs[..p], env) + [regs[p]] + Failed(regs[p + 1..], env)
  {
    var init := regs[..n];
    assert |Succeeded(init, env)| + 1 != interval by {
      assert init[..p] == regs[..p];
      SucceededGrows(init, p, env);
    }
    var extra: seq<Region> := if GetSector(regs[n].loc, env).Failure? then [regs[n]] else [];
    RunCancelStep(regs, n, delay, interval, env);
    FailedAfter(regs, p, n, env);
    Reassociate(Run(regs, delay, interval, env).cancel, Run(init, delay, interval, env).cancel,
                Failed(regs[..p], env) + [regs[p]], Failed(regs[p + 1..n], env), Failed(regs[p + 1..], env), extra);
  }

  /** `c` is `c0` extended by `extra`, `c0` is `front` followed by `mid`, and
      `tail` is `mid` extended by `extra`: so `c` is `front` followed by `tail`. */
  lemma Reassociate<T>(c: seq<T>, c0: seq<T>, front: seq<T>, mid: seq<T>, tail: seq<T>, extra: seq<T>)
    requires c == c0 + extra && c0 == front + mid && tail == mid + extra
    ensures c == front + tail
  {
    assert (front + mid) + extra == front + (mid + extra);
  }

  /** The case of `RunSleepRaisesAt` where the raising region is the last:
      before it only the failures were cancelled. */
  lemma SleepRaisedLast(regs: seq<Region>, delay: int, interval: int, env: Env, n: nat)
    requires delay < 0 && n == |regs| - 1
    requires GetSector(regs[n].loc, env).Success? && |Succeeded(regs[..n], env)| == interval - 1
    ensures Run(regs, delay, interval, env).cancel == Failed(regs[..n], env) + [regs[n]] + Failed(regs[n + 1..], env)
  {
    var init := regs[..n];
    assert Run(init, delay, interval, env).cancel == Failed(init, env) by {
      RunSleepRaises(init, delay, interval, env);
      RunPartitions(init, delay, interval, env);
    }
    assert regs[n + 1..] == [];
    RunCancelStep(regs, n, delay, interval, env);
  }

  /** Under a negative delay the last region is cancelled when its lookup
      fails or when it is the `interval`-th success. */
  lemma RunCancelStep(regs: seq<Region>, n: nat, delay: int, interval: int, env: Env)
    requires delay < 0 && n == |regs| - 1
    ensures Run(regs, delay, interval, env).cancel
            == Run(regs[..n], delay, interval, env).cancel
               + (if GetSector(regs[n].loc, env).Failure? || |Succeeded(regs[..n], env)| + 1 == interval then [regs[n]] else [])
  {
    var init := regs[..n];
    RunPaces(init, delay, interval, env);
    RunPartitions(init, delay, interval, env);
    StepCancel(Run(init, delay, interval, env), regs[n], delay, interval, env);
  }

  /** The failures after position `p` are those before the last region `n`,
      followed by that region when its lookup fails. */
  lemma FailedAfter(regs: seq<Region>, p: nat, n: nat, env: Env)
    requires p < n == |regs| - 1
    ensures Failed(regs[p + 1..], env)
            == Failed(regs[p + 1..n], env) + (if GetSector(regs[n].loc, env).Failure? then [regs[n]] else [])
  {
    var tail := regs[p + 1..];
    assert tail[..|tail| - 1] == regs[p + 1..n];
  }

  /** One iteration under a negative delay, while the counter equals the
      successes so far: a failure or the `interval`-th success appends the
      region to the cancelled ones, any other success leaves them. */
  lemma StepCancel(b: Batch, reg: Region, delay: int, interval: int, env: Env)
    requires delay < 0 && b.loading == |b.sectors|
    ensures Step(b, reg, delay, interval, env).cancel
            == b.cancel + (if GetSector(reg.loc, env).Failure? || |b.sectors| + 1 == interval then [reg] else [])
  {
  }

  /** The successes of a prefix followed by a successful lookup are at
      most those of any longer prefix, less one. */
  lemma {:induction false} SucceededGrows(regs: seq<Region>, p: nat, env: Env)
    requires p < |regs| && GetSector(regs[p].loc, env).Success?
    ensures |Succeeded(regs, env)| >= |Succeeded(regs[..p], env)| + 1
  {
    var n := |regs| - 1;
    if p < n {
      assert regs[..n][..p] == regs[..p];
      SucceededGrows(regs[..n], p, env);
    } else {
      assert regs[..n] == regs[..p];
    }
  }

  /** Every failure, and nothing else, is followed by the error pause;
      failures do not touch the counter. */
  lemma {:induction false} RunErrorPauses(regs: seq<Region>, delay: int, interval: int, env: Env)
    ensures ErrorPauses(Run(regs, delay, interval, env).pauses) == |Run(regs, delay, interval, env).cancel|
  {
    if regs != [] {
      var init := regs[..|regs| - 1];
      var b := Run(init, delay, interval, env);
      RunErrorPauses(init, delay, interval, env);
      PausesSnoc(b.pauses, RatePause(delay));
      PausesSnoc(b.pauses, ErrorPause(ErrorDelay));
    }
  }

  /** Ten regions of which the fourth fails: nine sectors and the loop
      runs to the end. With a delay sleep accepts, exactly that region is
      cancelled; with a negative delay and an interval of at most nine,
      the region at which sleep raises (the `interval`-th success) is
      cancelled too, in loop order. */
  lemma TenRegionsFourthFails(regions: seq<Region>, delay: int, interval: int, env: Env)
    requires |regions| == 10
    requires forall i :: 0 <= i < 10 ==> (GetSector(regions[i].loc, env).Failure? <==> i == 3)
    ensures var b := Run(regions, delay, interval, env);
            && |b.sectors| == 9
            && (delay >= 0 ==> b.cancel == [regions[3]])
            && (delay < 0 && 0 < interval <= 9 ==>
                  b.cancel == if interval <= 3 then [regions[interval - 1], regions[3]]
                              else [regions[3], regions[interval]])
  {
    RunPartitions(regions, delay, interval, env);
    SucceededFailed(regions, env);
    FailedOnly(regions, env, 3);
    if delay < 0 && 0 < interval <= 3 {
      TenRegionsRaiseEarly(regions, delay, interval, env);
    } else if delay < 0 && 4 <= interval <= 9 {
      TenRegionsRaiseLate(regions, delay, interval, env);
    }
  }

  /** The negative-delay case of `TenRegionsFourthFails`, with sleep raising
      before the failed fourth region. */
  lemma TenRegionsRaiseEarly(regions: seq<Region>, delay: int, interval: int, env: Env)
    requires |regions| == 10 && delay < 0 && 0 < interval <= 3
    requires forall i :: 0 <= i < 10 ==> (GetSector(regions[i].loc, env).Failure? <==> i == 3)
    ensures Run(regions, delay, interval, env).cancel == [regions[interval - 1], regions[3]]
  {
    var p := interval - 1;
    var pre, post := regions[..p], regions[p + 1..];
    forall i | 0 <= i < |pre| ensures GetSector(pre[i].loc, env).Success? {
      assert pre[i] == regions[i];
    }
    NoneFailed(pre, env);
    SucceededFailed(pre, env);
    forall i | 0 <= i < |post| ensures GetSector(post[i].loc, env).Failure? <==> i == 2 - p {
      assert post[i] == regions[p + 1 + i];
    }
    FailedOnly(post, env, 2 - p);
    assert post[2 - p] == regions[3];
    RunSleepRaisesAt(regions, delay, interval, env, p);
  }

  /** The negative-delay case of `TenRegionsFourthFails`, with sleep raising
      after the failed fourth region. */
  lemma TenRegionsRaiseLate(regions: seq<Region>, delay: int, interval: int, env: Env)
    requires |regions| == 10 && delay < 0 && 4 <= interval <= 9
    requires forall i :: 0 <= i < 10 ==> (GetSector(regions[i].loc, env).Failure? <==> i == 3)
    ensures Run(regions, delay, interval, env).cancel == [regions[3], regions[interval]]
  {
    var p := interval;
    var pre, post := regions[..p], regions[p + 1..];
    forall i | 0 <= i < |pre| ensures GetSector(pre[i].loc, env).Failure? <==> i == 3 {
      assert pre[i] == regions[i];
    }
    FailedOnly(pre, env, 3);
    SucceededFailed(pre, env);
    forall i | 0 <= i < |post| ensures GetSector(post[i].loc, env).Success? {
      assert post[i] == regions[p + 1 + i];
    }
    NoneFailed(post, env);
    RunSleepRaisesAt(regions, delay, interval, env, p);
  }

  /** When exactly the lookup at index k fails, the failures are that one
      region. */
  lemma {:induction false} FailedOnly(regs: seq<Region>, env: Env, k: nat)
    requires k < |regs|
    requires forall i :: 0 <= i < |regs| ==> (GetSector(regs[i].loc, env).Failure? <==> i == k)
    ensures Failed(regs, env) == [regs[k]]
  {
    var init := regs[..|regs| - 1];
    if k < |regs| - 1 {
      FailedOnly(init, env, k);
    } else {
      NoneFailed(init, env);
    }
  }

  lemma {:induction false} NoneFailed(regs: seq<Region>, env: Env)
    requires forall i :: 0 <= i < |regs| ==> GetSector(regs[i].loc, env).Success?
    ensures Failed(regs, env) == []
  {
    if regs != [] {
      NoneFailed(regs[..|regs| - 1], env);
    }
  }
}
