/**
 * The change-notification stream of the mobile server (GET /api/heartbeat in
 * mobile/mc-server.py): each poll reads the latest `updated_at` of the
 * mission's tasks and sends a refresh event when it differs from the last
 * value seen. The sleeps between polls and the event-stream framing are not
 * part of this model; a poll's outcome and the clock reading that goes with
 * it are given as a `Poll`.
 */
module Heartbeat {
  import opened Wrappers
  import opened TaskBoard

  /** `SELECT MAX(updated_at) FROM tasks WHERE mission_id = ?`: NULL when no row is selected. */
  function LatestUpdate(tasks: seq<Task>, mid: Option<int>): (r: Option<int>)
    ensures r.None? <==> forall t | t in tasks :: mid != Some(t.missionId)
    ensures r.Some? ==> exists t | t in tasks :: mid == Some(t.missionId) && t.updatedAt == r.value
    ensures r.Some? ==> forall t | t in tasks && mid == Some(t.missionId) :: t.updatedAt <= r.value
  {
    if tasks == [] then None
    else
      assert forall t | t in tasks[1..] :: t in tasks;
      assert tasks == [tasks[0]] + tasks[1..];
      var rest := LatestUpdate(tasks[1..], mid);
      if mid != Some(tasks[0].missionId) then rest
      else if rest.Some? && rest.value > tasks[0].updatedAt then rest
      else Some(tasks[0].updatedAt)
  }

  /** One pass of the loop body: the query's answer and `time.time()` at that moment, or the query's failure. */
  datatype Poll = Polled(latest: Option<int>, clock: real) | QueryFailed(reason: string)

  /** What the stream sends: `{"refresh": true, "ts": …}` or `{"error": …}`. */
  datatype Event = Refresh(ts: int) | ErrorEvent(error: string)

  /** The watermark after a poll and the events the poll sends. */
  datatype StreamState = StreamState(lastCheck: Option<int>, events: seq<Event>)

  /** The poll made against the tasks table as it stands. */
  function PollTasks(tasks: seq<Task>, mid: Option<int>, clock: real): Poll {
    Polled(LatestUpdate(tasks, mid), clock)
  }

  /**
   * One iteration: a refresh, stamped with the current second, exactly when
   * the answer differs from the watermark, which then takes the answer; a
   * failure sends an error and keeps the watermark.
   */
  function Step(lastCheck: Option<int>, poll: Poll): (r: StreamState)
    ensures |r.events| <= 1
    ensures (exists ts :: r.events == [Refresh(ts)]) <==> poll.Polled? && poll.latest != lastCheck
    ensures r.events == [] <==> poll.Polled? && poll.latest == lastCheck
    ensures poll.Polled? ==> r.lastCheck == poll.latest
    ensures poll.Polled? && r.events != [] ==> r.events[0].ts == Trunc(poll.clock)
    ensures poll.QueryFailed? ==> r.lastCheck == lastCheck && r.events == [ErrorEvent(poll.reason)]
  {
    match poll
    case Polled(latest, clock) =>
      if latest != lastCheck then StreamState(latest, [Refresh(Trunc(clock))])
      else StreamState(lastCheck, [])
    case QueryFailed(reason) => StreamState(lastCheck, [ErrorEvent(reason)])
  }

  /** The stream after the given polls, from watermark `start`. */
  function Run(start: Option<int>, polls: seq<Poll>): (r: StreamState)
    ensures |r.events| <= |polls|
  {
    if polls == [] then StreamState(start, [])
    else
      var before := Run(start, polls[..|polls| - 1]);
      var step := Step(before.lastCheck, polls[|polls| - 1]);
      StreamState(step.lastCheck, before.events + step.events)
  }

  /** The stream generator: the watermark starts as None and every poll runs one step. */
  method Stream(polls: seq<Poll>) returns (events: seq<Event>)
    ensures events == Run(None, polls).events
  {
    var lastCheck: Option<int> := None;
    events := [];
    var i := 0;
    while i < |polls|
      invariant 0 <= i <= |polls|
      invariant Run(None, polls[..i]) == StreamState(lastCheck, events)
    {
      var poll := polls[i];
      assert polls[..i + 1][..i] == polls[..i];
      match poll {
        case Polled(latest, clock) =>
          if latest != lastCheck {
            lastCheck := latest;
            events := events + [Refresh(Trunc(clock))];
          }
        case QueryFailed(reason) =>
          events := events + [ErrorEvent(reason)];
      }
      i := i + 1;
    }
    assert polls[..|polls|] == polls;
  }

  /** Polls that answer the watermark again send nothing and leave it in place. */
  lemma {:induction false} Quiescence(w: Option<int>, polls: seq<Poll>)
    requires forall k | 0 <= k < |polls| :: polls[k].Polled? && polls[k].latest == w
    ensures Run(w, polls) == StreamState(w, [])
  {
    if polls != [] {
      Quiescence(w, polls[..|polls| - 1]);
    }
  }

  /** A mission without tasks never sends a refresh: its answer is NULL, the starting watermark. */
  lemma NoTasksNoRefresh(polls: seq<Poll>)
    requires forall k | 0 <= k < |polls| :: polls[k].Polled? && polls[k].latest.None?
    ensures Run(None, polls).events == []
  {
    Quiescence(None, polls);
  }

  /**
   * A change seen once sends exactly one refresh, and later polls that see
   * the same value send nothing more.
   */
  lemma OneRefreshPerChange(w: Option<int>, latest: Option<int>, clock: real, later: seq<Poll>)
    requires latest != w
    requires forall k | 0 <= k < |later| :: later[k].Polled? && later[k].latest == latest
    ensures Run(w, [Polled(latest, clock)] + later) == StreamState(latest, [Refresh(Trunc(clock))])
  {
    var first := [Polled(latest, clock)];
    assert first[..0] == [];
    RunAppend(w, first, later);
    Quiescence(latest, later);
  }

  /** Running `xs + ys` is running `xs` and then `ys` from the watermark `xs` leaves. */
  lemma {:induction false} RunAppend(w: Option<int>, xs: seq<Poll>, ys: seq<Poll>)
    ensures var half := Run(w, xs);
            Run(w, xs + ys) == StreamState(Run(half.lastCheck, ys).lastCheck, half.events + Run(half.lastCheck, ys).events)
  {
    if ys == [] {
      assert xs + ys == xs;
    } else {
      var init := ys[..|ys| - 1];
      RunAppend(w, xs, init);
      assert (xs + ys)[..|xs + ys| - 1] == xs + init;
      assert (xs + ys)[|xs + ys| - 1] == ys[|ys| - 1];
    }
  }

  /** A claim in a later second than every earlier update of the mission is signalled on the next poll. */
  lemma ClaimSignalled(tasks: seq<Task>, taskId: int, mid: Option<int>, owner: Option<string>, now: int,
                       i: nat, clock: real)
    requires i < |tasks| && Selected(tasks[i], taskId, mid)
    requires forall t | t in tasks && mid == Some(t.missionId) :: t.updatedAt < now
    ensures Step(LatestUpdate(tasks, mid), PollTasks(Claim(tasks, taskId, mid, owner, now), mid, clock)).events
            == [Refresh(Trunc(clock))]
  {
    var after := Claim(tasks, taskId, mid, owner, now);
    LatestAfterUpdate(tasks, after, mid, now, i);
    assert tasks[i] in tasks;
  }

  /**
   * A claim in the same second as the watermark goes unnoticed: `updated_at`
   * has one-second resolution, so the answer does not change.
   */
  lemma SameSecondClaimUnnoticed(tasks: seq<Task>, taskId: int, mid: Option<int>, owner: Option<string>,
                                 now: int, i: nat, clock: real)
    requires i < |tasks| && Selected(tasks[i], taskId, mid)
    requires LatestUpdate(tasks, mid) == Some(now)
    ensures Step(Some(now), PollTasks(Claim(tasks, taskId, mid, owner, now), mid, clock)).events == []
  {
    var after := Claim(tasks, taskId, mid, owner, now);
    LatestAfterUpdate(tasks, after, mid, now, i);
  }

  /**
   * After an update that stamps a selected row with `now` and leaves every
   * other row alone, the latest update is `now` if nothing was later.
   */
  lemma LatestAfterUpdate(tasks: seq<Task>, after: seq<Task>, mid: Option<int>, now: int, i: nat)
    requires |after| == |tasks| && i < |tasks| && mid == Some(tasks[i].missionId)
    requires after[i].updatedAt == now
    requires forall k | 0 <= k < |tasks| :: after[k].missionId == tasks[k].missionId
    requires forall k | 0 <= k < |tasks| :: after[k] == tasks[k] || after[k].updatedAt == now
    requires forall t | t in tasks && mid == Some(t.missionId) :: t.updatedAt <= now
    ensures LatestUpdate(after, mid) == Some(now)
  {
    var r := LatestUpdate(after, mid);
    assert after[i] in after;
    var t :| t in after && mid == Some(t.missionId) && t.updatedAt == r.value;
    var k :| 0 <= k < |after| && after[k] == t;
    if after[k] == tasks[k] {
      assert tasks[k] in tasks;
    }
  }
}
