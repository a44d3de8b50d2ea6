/** extensions/webhooks.py, _allow_rate: a fixed-window limiter driven by a clock in microseconds. */
module RateLimiter {
  import opened Common

  const MINUTE: int := 60000000

  datatype Window = Window(start: int, count: int)

  datatype Call = Call(at: int, allowed: bool)

  /** The window a call at this time falls into, before it is counted. */
  function Current(w: Option<Window>, now: int): Window {
    if w.None? || now - w.value.start >= MINUTE then Window(now, 0) else w.value
  }

  function Allows(w: Option<Window>, now: int, limit: int): bool {
    Current(w, now).count < limit
  }

  function After(w: Option<Window>, now: int, limit: int): Window {
    var cur := Current(w, now);
    if Allows(w, now, limit) then cur.(count := cur.count + 1) else cur
  }

  /** The stored window after a history of calls. */
  function WindowAfter(times: seq<int>, limit: int): Option<Window> {
    if times == [] then None
    else Some(After(WindowAfter(times[..|times| - 1], limit), times[|times| - 1], limit))
  }

  /** Every call of a history with its verdict. */
  function Log(times: seq<int>, limit: int): seq<Call> {
    if times == [] then []
    else
      var before, now := times[..|times| - 1], times[|times| - 1];
      Log(before, limit) + [Call(now, Allows(WindowAfter(before, limit), now, limit))]
  }

  /** How many calls were allowed at times in [from, to). */
  function AllowedIn(log: seq<Call>, from: int, to: int): nat {
    if log == [] then 0
    else
      var last := log[|log| - 1];
      AllowedIn(log[..|log| - 1], from, to) + if last.allowed && from <= last.at < to then 1 else 0
  }

  predicate Chronological(times: seq<int>) {
    forall i, j :: 0 <= i < j < |times| ==> times[i] <= times[j]
  }

  function Quota(limit: int): nat { Max(limit, 0) }

  /** The most limiter calls any 60 seconds can let through. */
  function Burst(limit: int): nat { Max(2 * Quota(limit) - 1, 0) }

  lemma LogStep(times: seq<int>, now: int, limit: int)
    ensures Log(times + [now], limit) == Log(times, limit) + [Call(now, Allows(WindowAfter(times, limit), now, limit))]
    ensures WindowAfter(times + [now], limit) == Some(After(WindowAfter(times, limit), now, limit))
  {
    assert (times + [now])[..|times|] == times;
  }

  lemma AllowedStep(log: seq<Call>, c: Call, from: int, to: int)
    ensures AllowedIn(log + [c], from, to) == AllowedIn(log, from, to) + if c.allowed && from <= c.at < to then 1 else 0
  {
    assert (log + [c])[..|log|] == log;
  }

  /** What holds after a chronological history, of the stored window, the last call, the allowances since the
      window opened and the allowances n in the minute from some instant: the window is less than a minute
      old and counts its own allowances, and n is bounded by where the window opened. */
  predicate Tight(w: Window, last: int, since: int, n: int, limit: int, from: int) {
    var q := Quota(limit);
    && w.start <= last < w.start + MINUTE
    && 0 <= since == w.count <= q
    && (if q == 0 then n == 0 else w.count > 0)
    && (last < from ==> n == 0)
    && (w.start < from && q > 0 ==> n <= w.count - 1)
    && (from <= w.start < from + MINUTE && q > 0 ==> n <= q - 1 + w.count)
    && 0 <= n <= Burst(limit)
  }

  lemma TightFirst(now: int, limit: int, from: int)
    ensures var one := if Allows(None, now, limit) then 1 else 0;
      Tight(After(None, now, limit), now, one, if from <= now < from + MINUTE then one else 0, limit, from)
  {
  }

  lemma TightStep(w: Window, last: int, since: int, n: int, limit: int, from: int, now: int)
    requires Tight(w, last, since, n, limit, from) && last <= now
    ensures var one := if Allows(Some(w), now, limit) then 1 else 0;
      Tight(After(Some(w), now, limit), now, one + (if now - w.start >= MINUTE then 0 else since),
            n + (if from <= now < from + MINUTE then one else 0), limit, from)
  {
  }

  /** Nothing was allowed in an interval without calls. */
  lemma {:induction false} NoneThere(log: seq<Call>, from: int, to: int)
    requires forall i :: 0 <= i < |log| ==> log[i].at < from || log[i].at >= to
    ensures AllowedIn(log, from, to) == 0
  {
    if log != [] {
      NoneThere(log[..|log| - 1], from, to);
    }
  }

  /** Moving the right end past the last call changes no count. */
  lemma {:induction false} AllowedUpTo(log: seq<Call>, from: int, to: int, to': int)
    requires forall i :: 0 <= i < |log| ==> log[i].at < to && log[i].at < to'
    ensures AllowedIn(log, from, to) == AllowedIn(log, from, to')
  {
    if log != [] {
      AllowedUpTo(log[..|log| - 1], from, to, to');
    }
  }

  /** Tight, with the counts taken from a log. */
  predicate TightLog(log: seq<Call>, w: Window, last: int, limit: int, from: int) {
    Tight(w, last, AllowedIn(log, w.start, last + 1), AllowedIn(log, from, from + MINUTE), limit, from)
  }

  predicate NoneAfter(log: seq<Call>, last: int) {
    forall i :: 0 <= i < |log| ==> log[i].at <= last
  }

  /** A call that opens a new window finds no allowance in it; any other finds those already counted. */
  lemma SinceOpening(log: seq<Call>, w: Window, last: int, now: int)
    requires NoneAfter(log, last) && last <= now && last < w.start + MINUTE
    ensures if now - w.start >= MINUTE then AllowedIn(log, now, now + 1) == 0
            else AllowedIn(log, w.start, now + 1) == AllowedIn(log, w.start, last + 1)
  {
    if now - w.start >= MINUTE {
      NoneThere(log, now, now + 1);
    } else {
      AllowedUpTo(log, w.start, last + 1, now + 1);
    }
  }

  lemma TightNext(log: seq<Call>, w: Window, last: int, now: int, limit: int, from: int)
    requires NoneAfter(log, last) && last <= now && TightLog(log, w, last, limit, from)
    ensures TightLog(log + [Call(now, Allows(Some(w), now, limit))], After(Some(w), now, limit), now, limit, from)
  {
    var c, w' := Call(now, Allows(Some(w), now, limit)), After(Some(w), now, limit);
    SinceOpening(log, w, last, now);
    TightStep(w, last, AllowedIn(log, w.start, last + 1), AllowedIn(log, from, from + MINUTE), limit, from, now);
    AllowedStep(log, c, from, from + MINUTE);
    AllowedStep(log, c, w'.start, now + 1);
  }

  lemma TightStart(now: int, limit: int, from: int)
    ensures TightLog([Call(now, Allows(None, now, limit))], After(None, now, limit), now, limit, from)
  {
    var c, w := Call(now, Allows(None, now, limit)), After(None, now, limit);
    TightFirst(now, limit, from);
    AllowedStep([], c, from, from + MINUTE);
    AllowedStep([], c, w.start, now + 1);
    assert [] + [c] == [c];
  }

  lemma {:induction false} TightAlways(times: seq<int>, limit: int, from: int)
    requires Chronological(times) && times != []
    ensures TightLog(Log(times, limit), WindowAfter(times, limit).value, times[|times| - 1], limit, from)
    ensures NoneAfter(Log(times, limit), times[|times| - 1])
  {
    var before, now := times[..|times| - 1], times[|times| - 1];
    if before == [] {
      TightStart(now, limit, from);
    } else {
      TightAlways(before, limit, from);
      TightNext(Log(before, limit), WindowAfter(before, limit).value, before[|before| - 1], now, limit, from);
    }
  }

  /** For every history with a non-decreasing clock and every instant, the 60 seconds from that instant let at
      most 2L - 1 calls through (none if L is not positive). */
  lemma MinuteBound(times: seq<int>, limit: int, from: int)
    requires Chronological(times)
    ensures AllowedIn(Log(times, limit), from, from + MINUTE) <= Burst(limit)
  {
    if times != [] {
      TightAlways(times, limit, from);
    }
  }

  /** Every refusal is preceded by exactly L allowances in its window, all less than 60 seconds old. */
  lemma RefusalJustified(times: seq<int>, limit: int, now: int) returns (start: int)
    requires Chronological(times + [now])
    requires !Allows(WindowAfter(times, limit), now, limit)
    ensures now - MINUTE < start <= now
    ensures AllowedIn(Log(times, limit), start, now + 1) == Quota(limit)
  {
    TightAlways(times + [now], limit, now);
    LogStep(times, now, limit);
    var w := WindowAfter(times + [now], limit).value;
    AllowedStep(Log(times, limit), Call(now, false), w.start, now + 1);
    start := w.start;
  }

  /** One call, then L - 1 calls just before its window closes, then L calls when the next one opens. */
  function Worst(limit: nat): seq<int>
    requires limit > 0
  {
    [0] + seq(limit - 1, _ => MINUTE - 1) + seq(limit, _ => MINUTE)
  }

  lemma WorstAt(limit: nat, k: nat)
    requires limit > 0 && k < 2 * limit
    ensures |Worst(limit)| == 2 * limit
    ensures Worst(limit)[k] == if k == 0 then 0 else if k < limit then MINUTE - 1 else MINUTE
  {
  }

  function WorstWindow(limit: nat, k: nat): Window {
    if k <= limit then Window(0, k) else Window(MINUTE, k - limit)
  }

  lemma WorstStep(limit: nat, k: nat)
    requires 0 < k < 2 * limit
    ensures var w, now := Some(WorstWindow(limit, k)), if k < limit then MINUTE - 1 else MINUTE;
      Allows(w, now, limit) && After(w, now, limit) == WorstWindow(limit, k + 1)
  {
  }

  /** The first k calls of the worst case, counted from the last moment of the first window. */
  lemma {:induction false} WorstPrefix(times: seq<int>, limit: nat, k: nat)
    requires limit > 0 && |times| == 2 * limit && 0 < k <= 2 * limit
    requires forall i :: 0 <= i < |times| ==> times[i] == if i == 0 then 0 else if i < limit then MINUTE - 1 else MINUTE
    ensures WindowAfter(times[..k], limit) == Some(WorstWindow(limit, k))
    ensures AllowedIn(Log(times[..k], limit), MINUTE - 1, 2 * MINUTE - 1) == k - 1
  {
    var before, now := times[..k - 1], times[k - 1];
    assert times[..k] == before + [now];
    LogStep(before, now, limit);
    var c := Call(now, Allows(WindowAfter(before, limit), now, limit));
    AllowedStep(Log(before, limit), c, MINUTE - 1, 2 * MINUTE - 1);
    if k > 1 {
      WorstPrefix(times, limit, k - 1);
      WorstStep(limit, k - 1);
    } else {
      assert before == [];
    }
  }

  /** The bound is attained for every positive limit, by a chronological history. So "at most L limiter calls allowed
      in any minute" holds exactly for limits of at most one. */
  lemma MinuteBoundTight(limit: nat)
    requires limit > 0
    ensures Chronological(Worst(limit))
    ensures AllowedIn(Log(Worst(limit), limit), MINUTE - 1, 2 * MINUTE - 1) == Burst(limit)
    ensures Burst(limit) <= limit <==> limit <= 1
  {
    var times := Worst(limit);
    forall i | 0 <= i < 2 * limit ensures times[i] == if i == 0 then 0 else if i < limit then MINUTE - 1 else MINUTE {
      WorstAt(limit, i);
    }
    WorstPrefix(times, limit, 2 * limit);
    assert times[..2 * limit] == times;
  }

  // ---- What was allowed lands later ----

  /** Each allowed call leads to something stamped later: no earlier than the call itself and no later than the next
      call, for the caller does one thing after the other. */
  predicate InTurn(log: seq<Call>, stamps: seq<int>) {
    && |log| == |stamps|
    && (forall i :: 0 <= i < |log| ==> log[i].at <= stamps[i])
    && (forall i :: 0 <= i < |log| - 1 ==> stamps[i] <= log[i + 1].at)
  }

  /** How many allowed calls have their stamp in [from, to). */
  function LandedIn(log: seq<Call>, stamps: seq<int>, from: int, to: int): nat
    requires |log| == |stamps|
  {
    if log == [] then 0
    else
      var n := |log| - 1;
      LandedIn(log[..n], stamps[..n], from, to) + if log[n].allowed && from <= stamps[n] < to then 1 else 0
  }

  lemma {:induction false} NoneLanded(log: seq<Call>, stamps: seq<int>, from: int, to: int)
    requires |log| == |stamps| && forall i :: 0 <= i < |log| ==> stamps[i] < from || !log[i].allowed
    ensures LandedIn(log, stamps, from, to) == 0
  {
    if log != [] {
      NoneLanded(log[..|log| - 1], stamps[..|log| - 1], from, to);
    }
  }

  /** Nothing is stamped after the last call but its own. */
  lemma {:induction false} StampsBefore(log: seq<Call>, stamps: seq<int>, i: nat)
    requires InTurn(log, stamps) && i < |log| - 1
    ensures stamps[i] <= log[|log| - 1].at
  {
    if i < |log| - 2 {
      StampsBefore(log[..|log| - 1], stamps[..|log| - 1], i);
    }
  }

  /** At most one call from before an interval lands in it. */
  lemma {:induction false} OneCarriedOver(log: seq<Call>, stamps: seq<int>, from: int, to: int)
    requires InTurn(log, stamps)
    ensures LandedIn(log, stamps, from, to) <= AllowedIn(log, from, to) + 1
  {
    if log != [] {
      var n := |log| - 1;
      if log[n].at < from {
        forall i | 0 <= i < n ensures stamps[i] < from {
          StampsBefore(log, stamps, i);
        }
        NoneLanded(log[..n], stamps[..n], from, to);
      } else {
        OneCarriedOver(log[..n], stamps[..n], from, to);
      }
    }
  }

  lemma {:induction false} LogTimes(times: seq<int>, limit: int)
    ensures |Log(times, limit)| == |times| && forall i :: 0 <= i < |times| ==> Log(times, limit)[i].at == times[i]
  {
    if times != [] {
      LogTimes(times[..|times| - 1], limit);
    }
  }

  lemma {:induction false} InTurnChronological(times: seq<int>, log: seq<Call>, stamps: seq<int>)
    requires InTurn(log, stamps) && |times| == |log| && forall i :: 0 <= i < |times| ==> log[i].at == times[i]
    ensures Chronological(times)
  {
    if times != [] {
      var n := |times| - 1;
      InTurnChronological(times[..n], log[..n], stamps[..n]);
      forall i | 0 <= i < n ensures times[i] <= times[n] {
        StampsBefore(log, stamps, i);
      }
    }
  }

  /** Without a positive limit nothing is ever allowed. */
  lemma {:induction false} NothingAllowed(times: seq<int>, limit: int)
    requires limit <= 0
    ensures WindowAfter(times, limit).Some? ==> WindowAfter(times, limit).value.count >= 0
    ensures forall i :: 0 <= i < |Log(times, limit)| ==> !Log(times, limit)[i].allowed
  {
    if times != [] {
      NothingAllowed(times[..|times| - 1], limit);
    }
  }

  /** So by the time they land, any 60 seconds see at most 2L: the 2L - 1 that the limiter lets through, and one that
      it let through before. */
  lemma LandedMinuteBound(times: seq<int>, stamps: seq<int>, limit: int, from: int)
    requires InTurn(Log(times, limit), stamps)
    ensures LandedIn(Log(times, limit), stamps, from, from + MINUTE) <= 2 * Quota(limit)
  {
    LogTimes(times, limit);
    InTurnChronological(times, Log(times, limit), stamps);
    if limit <= 0 {
      NothingAllowed(times, limit);
      NoneLanded(Log(times, limit), stamps, from, from + MINUTE);
    } else {
      MinuteBound(times, limit, from);
      OneCarriedOver(Log(times, limit), stamps, from, from + MINUTE);
    }
  }
}
