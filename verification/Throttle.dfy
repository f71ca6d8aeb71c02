/** The fixed-window rate limiter (src/common/throttle.middleware.ts). */
module Throttle {
  type Key = string
  type Time = int   // milliseconds

  const WINDOW_MS: int := 1000

  datatype Entry = Entry(count: int, resetAt: Time)

  type Windows = map<Key, Entry>

  datatype Decision = Admit | Refuse(retryAfterMs: int)

  datatype Outcome = Outcome(windows: Windows, decision: Decision)

  function Judged(w: Windows, limit: int, key: Key, now: Time): Outcome {
    if limit <= 0 then Outcome(w, Admit)
    else if key !in w || now >= w[key].resetAt then Outcome(w[key := Entry(1, now + WINDOW_MS)], Admit)
    else if w[key].count >= limit then Outcome(w, Refuse(w[key].resetAt - now))
    else Outcome(w[key := w[key].(count := w[key].count + 1)], Admit)
  }

  function Pruned(w: Windows, now: Time): Windows {
    map key | key in w && now < w[key].resetAt :: w[key]
  }

  class Middleware {
    var windows: Windows
    const limit: int

    constructor (limit: int)
      ensures this.limit == limit && windows == map[]
    {
      this.limit := limit;
      windows := map[];
    }

    method Use(key: Key, now: Time) returns (d: Decision)
      modifies this
      ensures Outcome(windows, d) == Judged(old(windows), limit, key, now)
    {
      if limit <= 0 {
        return Admit;
      }
      if key !in windows || now >= windows[key].resetAt {
        windows := windows[key := Entry(1, now + WINDOW_MS)];
        return Admit;
      }
      var entry := windows[key];
      if entry.count >= limit {
        return Refuse(entry.resetAt - now);
      }
      windows := windows[key := entry.(count := entry.count + 1)];
      return Admit;
    }

    method Prune(now: Time)
      modifies this
      ensures windows == Pruned(old(windows), now)
    {
      var todo := windows.Keys;
      while todo != {}
        invariant todo <= windows.Keys <= old(windows).Keys
        invariant forall key :: key in windows ==> windows[key] == old(windows)[key]
        invariant forall key :: key in old(windows) && key !in todo ==> (key in windows <==> now < old(windows)[key].resetAt)
      {
        var key :| key in todo;
        todo := todo - {key};
        if now >= windows[key].resetAt {
          windows := windows - {key};
        }
      }
    }
  }

  /** One request, on its own facts: it is refused exactly under a positive limit, inside
      its bucket's open window, once that window has admitted the limit; the wait it is
      told is what is left of the window, and after it the bucket is open again. */
  lemma RefusalsAreExact(w: Windows, limit: int, key: Key, now: Time)
    ensures Judged(w, limit, key, now).decision.Refuse? <==>
              limit > 0 && key in w && now < w[key].resetAt && w[key].count >= limit
    ensures Judged(w, limit, key, now).decision.Refuse? ==>
              var wait := Judged(w, limit, key, now).decision.retryAfterMs;
              wait > 0 && Judged(w, limit, key, now + wait).decision.Admit?
              && forall t :: now <= t < now + wait ==> Judged(w, limit, key, t).decision.Refuse?
    ensures Judged(w, limit, key, now).decision.Refuse? ==> Judged(w, limit, key, now).windows == w
  {
  }

  /** What an admitted request leaves: the window it opens lasts one second and counts it;
      an open one counts one more; other buckets are untouched. */
  lemma AdmissionsAreCounted(w: Windows, limit: int, key: Key, now: Time)
    requires limit > 0 && Judged(w, limit, key, now).decision.Admit?
    ensures var w' := Judged(w, limit, key, now).windows;
            && key in w' && (forall k :: k != key ==> (k in w' <==> k in w) && (k in w ==> w'[k] == w[k]))
            && (key !in w || now >= w[key].resetAt ==> w'[key] == Entry(1, now + 1_000))
            && (key in w && now < w[key].resetAt ==> w'[key] == Entry(w[key].count + 1, w[key].resetAt))
  {
  }

  // ---- Runs ----------------------------------------------------------------

  /** A request of some bucket, or the cleanup timer firing. */
  datatype Event = Request(key: Key, now: Time) | Cleanup(now: Time)

  function Step(w: Windows, limit: int, e: Event): Windows {
    match e
    case Request(key, now) => Judged(w, limit, key, now).windows
    case Cleanup(now) => Pruned(w, now)
  }

  function Run(limit: int, es: seq<Event>): Windows {
    if |es| == 0 then map[] else Step(Run(limit, es[..|es| - 1]), limit, es[|es| - 1])
  }

  /** Whether the k-th event of a run is an admitted request of this bucket. */
  predicate Admits(limit: int, es: seq<Event>, key: Key, k: nat)
    requires k < |es|
  {
    es[k].Request? && es[k].key == key && Judged(Run(limit, es[..k]), limit, key, es[k].now).decision == Admit
  }

  /** Requests of a bucket admitted at or after `from` and before `until`. */
  function Admitted(limit: int, es: seq<Event>, key: Key, from: Time, until: Time): nat {
    if |es| == 0 then 0
    else
      var n := |es| - 1;
      Admitted(limit, es[..n], key, from, until)
      + (if from <= es[n].now < until && Admits(limit, es, key, n) then 1 else 0)
  }

  predicate ClockForward(es: seq<Event>) {
    forall i, j :: 0 <= i < j < |es| ==> es[i].now <= es[j].now
  }

  // ---- The bound -----------------------------------------------------------

  /** Whole windows from `from` to `t`. */
  function Whole(from: Time, t: Time): int
    requires from <= t
  {
    (t - from) / WINDOW_MS
  }

  /** After a run ending at `last`, with `a` requests admitted since `from`. */
  ghost predicate Counted(w: Windows, limit: int, key: Key, from: Time, last: Time, a: nat) {
    && (last < from ==> a == 0)
    && (key in w ==>
          var start := w[key].resetAt - WINDOW_MS;
          && 1 <= w[key].count <= limit && start <= last
          && a <= w[key].count + if start < from then 0 else limit * (1 + Whole(from, start)))
    && (key !in w && from <= last ==> a <= limit * (1 + Whole(from, last)))
  }

  lemma Scaled(limit: int, a: int, b: int)
    requires limit > 0 && a <= b
    ensures limit * a <= limit * b
  {
  }

  /** What had been admitted when a window can open at `now`. */
  lemma BeforeOpening(w: Windows, limit: int, key: Key, from: Time, last: Time, a: nat, now: Time)
    requires limit > 0 && Counted(w, limit, key, from, last, a) && last <= now
    requires key !in w || now >= w[key].resetAt
    ensures from <= now ==> a <= limit * (1 + Whole(from, now))
    ensures now < from ==> a == 0
  {
    if from <= last {
      if key !in w {
        Scaled(limit, 1 + Whole(from, last), 1 + Whole(from, now));
      } else {
        var start := w[key].resetAt - WINDOW_MS;
        if start < from {
          Scaled(limit, 1, 1 + Whole(from, now));
        } else {
          assert Whole(from, start) + 1 <= Whole(from, now);
          Scaled(limit, 2 + Whole(from, start), 1 + Whole(from, now));
          assert limit * (2 + Whole(from, start)) == limit * (1 + Whole(from, start)) + limit;
        }
      }
    } else if from <= now {
      Scaled(limit, 0, 1 + Whole(from, now));
    }
  }

  lemma StepCounts(w: Windows, limit: int, key: Key, from: Time, last: Time, a: nat, e: Event)
    requires limit > 0 && Counted(w, limit, key, from, last, a) && last <= e.now
    ensures var hit := e.Request? && e.key == key && from <= e.now && Judged(w, limit, key, e.now).decision == Admit;
            Counted(Step(w, limit, e), limit, key, from, e.now, a + if hit then 1 else 0)
  {
    if key !in w || e.now >= w[key].resetAt {
      BeforeOpening(w, limit, key, from, last, a, e.now);
    }
  }

  lemma {:induction false} RunCounts(limit: int, es: seq<Event>, key: Key, from: Time, until: Time)
    requires limit > 0 && |es| > 0 && ClockForward(es) && es[|es| - 1].now < until
    ensures Counted(Run(limit, es), limit, key, from, es[|es| - 1].now, Admitted(limit, es, key, from, until))
  {
    var n := |es| - 1;
    var (w, e) := (Run(limit, es[..n]), es[n]);
    if n == 0 {
      var early := if e.now < from then e.now else from - 1;
      StepCounts(w, limit, key, from, early, 0, e);
    } else {
      RunCounts(limit, es[..n], key, from, until);
      StepCounts(w, limit, key, from, es[n - 1].now, Admitted(limit, es[..n], key, from, until), e);
    }
  }

  /** Every bucket admits at most (k+1) * limit requests in any half-open interval
      of k windows, whenever the cleanup fires and whatever other buckets do. */
  lemma {:induction false} AdmissionsAreBounded(limit: int, es: seq<Event>, key: Key, from: Time, k: nat)
    requires limit > 0 && ClockForward(es)
    ensures Admitted(limit, es, key, from, from + k * 1_000) <= (k + 1) * limit
  {
    if |es| == 0 {
      Scaled(limit, 0, k + 1);
    } else {
      var (n, until) := (|es| - 1, from + k * WINDOW_MS);
      if es[n].now >= until {
        AdmissionsAreBounded(limit, es[..n], key, from, k);
      } else {
        RunCounts(limit, es, key, from, until);
        CountedIsBounded(Run(limit, es), limit, key, from, es[n].now, Admitted(limit, es, key, from, until), k);
      }
    }
  }

  lemma CountedIsBounded(w: Windows, limit: int, key: Key, from: Time, last: Time, a: nat, k: nat)
    requires limit > 0 && Counted(w, limit, key, from, last, a) && last < from + k * WINDOW_MS
    ensures a <= limit * (k + 1)
  {
    Scaled(limit, 0, k + 1);
    if from <= last {
      assert Whole(from, last) < k;
      if key !in w {
        Scaled(limit, 1 + Whole(from, last), k + 1);
      } else {
        var start := w[key].resetAt - WINDOW_MS;
        if start < from {
          Scaled(limit, 1, k + 1);
        } else {
          assert Whole(from, start) < k;
          Scaled(limit, 2 + Whole(from, start), k + 1);
          assert limit * (2 + Whole(from, start)) == limit * (1 + Whole(from, start)) + limit;
        }
      }
    }
  }

  /** Without a positive limit every request of a run is admitted. */
  lemma NoLimitAdmitsAll(limit: int, es: seq<Event>, k: nat)
    requires limit <= 0 && k < |es| && es[k].Request?
    ensures Admits(limit, es, es[k].key, k)
  {
  }

  // ---- Refusals are earned -------------------------------------------------

  /** The open window of a bucket counts requests admitted since it opened. */
  ghost predicate Earned(limit: int, es: seq<Event>, key: Key, until: Time) {
    var w := Run(limit, es);
    key in w ==>
      var start := w[key].resetAt - WINDOW_MS;
      |es| > 0 && start <= es[|es| - 1].now && w[key].count <= Admitted(limit, es, key, start, until)
  }

  lemma {:induction false} RunEarns(limit: int, es: seq<Event>, key: Key, until: Time)
    requires limit > 0 && ClockForward(es) && (|es| == 0 || es[|es| - 1].now < until)
    ensures Earned(limit, es, key, until)
  {
    if |es| > 0 {
      RunEarns(limit, es[..|es| - 1], key, until);
    }
  }

  lemma {:induction false} AdmittedWidens(limit: int, es: seq<Event>, key: Key, early: Time, late: Time, until: Time)
    requires early <= late
    ensures Admitted(limit, es, key, late, until) <= Admitted(limit, es, key, early, until)
  {
    if |es| > 0 {
      AdmittedWidens(limit, es[..|es| - 1], key, early, late, until);
    }
  }

  /** A request is refused only when its bucket admitted at least `limit` requests
      less than one window before. */
  lemma RefusedOnlyAfterLimitAdmissions(limit: int, es: seq<Event>, key: Key, now: Time)
    requires limit > 0 && ClockForward(es) && forall i :: 0 <= i < |es| ==> es[i].now <= now
    requires Judged(Run(limit, es), limit, key, now).decision.Refuse?
    ensures Admitted(limit, es, key, now - 1_000 + 1, now + 1) >= limit
  {
    RunEarns(limit, es, key, now + 1);
    var start := Run(limit, es)[key].resetAt - WINDOW_MS;
    AdmittedWidens(limit, es, key, now - WINDOW_MS + 1, start, now + 1);
  }

  // ---- Pruning is invisible ------------------------------------------------

  /** The run with every cleanup left out. */
  function Unpruned(es: seq<Event>): (r: seq<Event>)
    ensures |r| <= |es|
  {
    if |es| == 0 then []
    else
      var rest := Unpruned(es[..|es| - 1]);
      if es[|es| - 1].Cleanup? then rest else rest + [es[|es| - 1]]
  }

  /** `w` lacks only windows that were over by `last`. */
  ghost predicate Agrees(w: Windows, full: Windows, last: Time) {
    && (forall key :: key in w ==> key in full && full[key] == w[key])
    && (forall key :: key in full && key !in w ==> full[key].resetAt <= last)
  }

  lemma SameStep(w: Windows, full: Windows, limit: int, last: Time, e: Event)
    requires Agrees(w, full, last) && last <= e.now
    ensures Agrees(Step(w, limit, e), if e.Cleanup? then full else Step(full, limit, e), e.now)
  {
  }

  lemma {:induction false} PruningIsSilent(limit: int, es: seq<Event>, now: Time)
    requires ClockForward(es) && forall i :: 0 <= i < |es| ==> es[i].now <= now
    ensures Agrees(Run(limit, es), Run(limit, Unpruned(es)), now)
  {
    if |es| > 0 {
      var n := |es| - 1;
      PruningIsSilent(limit, es[..n], es[n].now);
      var rest := Unpruned(es[..n]);
      assert (rest + [es[n]])[..|rest|] == rest;
      SameStep(Run(limit, es[..n]), Run(limit, rest), limit, es[n].now, es[n]);
      assert Run(limit, Unpruned(es)) == if es[n].Cleanup? then Run(limit, rest) else Step(Run(limit, rest), limit, es[n]);
    }
  }

  /** Cleanups, at any moments, never change an admission decision. */
  lemma PruningNeverChangesADecision(limit: int, es: seq<Event>, key: Key, now: Time)
    requires ClockForward(es) && forall i :: 0 <= i < |es| ==> es[i].now <= now
    ensures Judged(Run(limit, es), limit, key, now).decision == Judged(Run(limit, Unpruned(es)), limit, key, now).decision
  {
    PruningIsSilent(limit, es, now);
  }
}
