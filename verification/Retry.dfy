/** The retry timer the UDP handshakes share: `next_send_time` and the twenty seconds. */
module Retry {
  const RETRY_INTERVAL_MS: nat := 500
  const TIMEOUT_MS: nat := 20000

  /** `next_send_time` after the messages sent at `sentAt`. */
  function NextSend(sentAt: seq<nat>): nat {
    if sentAt == [] then 0 else sentAt[|sentAt| - 1] + RETRY_INTERVAL_MS
  }

  /** The send times, when the timer is consulted at the times `asked`. */
  function SendTimes(asked: seq<nat>): (sentAt: seq<nat>) {
    if asked == [] then []
    else
      var before := SendTimes(asked[..|asked| - 1]);
      var now := asked[|asked| - 1];
      if now >= NextSend(before) then before + [now] else before
  }

  lemma SendTimesSnoc(asked: seq<nat>, now: nat)
    ensures SendTimes(asked + [now]) == if now >= NextSend(SendTimes(asked)) then SendTimes(asked) + [now] else SendTimes(asked)
  {
    assert (asked + [now])[..|asked|] == asked;
  }

  /** Every time the timer is consulted before the timeout. */
  predicate InTime(start: nat, asked: seq<nat>) {
    forall i | 0 <= i < |asked| :: start <= asked[i] < start + TIMEOUT_MS
  }

  predicate NonDecreasing(asked: seq<nat>) {
    forall i, j | 0 <= i < j < |asked| :: asked[i] <= asked[j]
  }

  /** Some message left at most 499 ms before `now`, and not after it. */
  predicate Covered(sentAt: seq<nat>, now: nat) {
    exists t | t in sentAt :: t <= now < t + 500
  }

  /** The messages leave at least 500 ms apart, in the twenty seconds in which the timer is
      consulted, and only when it is. */
  lemma {:induction false} Pacing(start: nat, asked: seq<nat>)
    requires InTime(start, asked)
    ensures var sentAt := SendTimes(asked);
      && (forall t | t in sentAt :: start <= t < start + 20000)
      && (forall i | 0 < i < |sentAt| :: sentAt[i - 1] + 500 <= sentAt[i])
      && (forall t | t in sentAt :: t in asked)
      && (asked != [] ==> sentAt != [] && sentAt[0] == asked[0])
  {
    if asked != [] {
      Pacing(start, asked[..|asked| - 1]);
      var before, now := SendTimes(asked[..|asked| - 1]), asked[|asked| - 1];
      if asked[..|asked| - 1] == [] {
        assert before == [] && now == asked[0];
      } else {
        assert asked[..|asked| - 1][0] == asked[0];
      }
      OnlyWhenAsked(asked);
    }
  }

  /** Messages leave only when the timer is consulted. */
  lemma {:induction false} OnlyWhenAsked(asked: seq<nat>)
    ensures forall t | t in SendTimes(asked) :: t in asked
  {
    if asked != [] {
      OnlyWhenAsked(asked[..|asked| - 1]);
      assert asked[|asked| - 1] in asked && forall t | t in asked[..|asked| - 1] :: t in asked;
    }
  }

  lemma LastCovered(asked: seq<nat>)
    requires asked != [] && forall t | t in asked :: t <= asked[|asked| - 1]
    ensures Covered(SendTimes(asked), asked[|asked| - 1])
  {
    var before, last := SendTimes(asked[..|asked| - 1]), asked[|asked| - 1];
    OnlyWhenAsked(asked);
    var t := if last >= NextSend(before) then last else before[|before| - 1];
    assert t in SendTimes(asked);
  }

  lemma LastIsLatest(asked: seq<nat>)
    requires asked != [] && NonDecreasing(asked)
    ensures forall t | t in asked :: t <= asked[|asked| - 1]
  {
  }

  lemma CoveredStays(sentAt: seq<nat>, more: seq<nat>, now: nat)
    requires Covered(sentAt, now)
    ensures Covered(sentAt + more, now)
  {
    var t :| t in sentAt && t <= now < t + 500;
    assert t in sentAt + more;
  }

  /** And none that is due is skipped: whenever the timer is consulted, a message has left
      within the last 500 ms. */
  lemma {:induction false} NoneSkipped(asked: seq<nat>, i: nat)
    requires NonDecreasing(asked) && i < |asked|
    ensures Covered(SendTimes(asked), asked[i])
    decreases |asked|
  {
    if i == |asked| - 1 {
      LastIsLatest(asked);
      LastCovered(asked);
    } else {
      var most, last := asked[..|asked| - 1], asked[|asked| - 1];
      NoneSkipped(most, i);
      CoveredStays(SendTimes(most), if last >= NextSend(SendTimes(most)) then [last] else [], asked[i]);
      assert SendTimes(most) + [] == SendTimes(most);
    }
  }

  /** At most forty messages of a kind leave in one handshake call. */
  lemma AtMostForty(start: nat, asked: seq<nat>)
    requires InTime(start, asked)
    ensures |SendTimes(asked)| <= 40
  {
    Pacing(start, asked);
    var sentAt := SendTimes(asked);
    if sentAt != [] {
      Span(sentAt, |sentAt| - 1);
    }
  }

  lemma {:induction false} Span(sentAt: seq<nat>, k: nat)
    requires k < |sentAt|
    requires forall i | 0 < i < |sentAt| :: sentAt[i - 1] + 500 <= sentAt[i]
    ensures sentAt[0] + 500 * k <= sentAt[k]
  {
    if k > 0 {
      Span(sentAt, k - 1);
      assert sentAt[k - 1] + 500 <= sentAt[k];
    }
  }
}
