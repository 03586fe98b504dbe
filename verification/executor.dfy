/**
 The request executor behind `post`, `put`, `get` and `delete`: send the
 request, decode the reply, and while the reply is a throttle signal,
 sleep for the wait it asks for and send the identical request again.

 The server is a script: the decoded reply to each successive send. A
 transport failure or an undecodable body decodes to `Null`. The source
 recurses without bound; here the recursion ends when the script is used
 up, which the trace reports as `Exhausted`.
 */
module Executor {
  import opened Wrappers
  import opened Php
  import opened Throttle
  import WaitTime

  datatype Verb = Get | Post | Put | Delete

  /** What is handed to the transport on every attempt. */
  datatype Request = Request(verb: Verb, url: string, body: Option<string>)

  datatype Outcome = Returned(value: Json) | Exhausted

  /** The observable run of one call: its result, the sleeps taken and the requests sent, in order. */
  datatype Trace = Trace(outcome: Outcome, sleeps: seq<nat>, sent: seq<Request>)

  /**
   `t` is what sending `req` against the scripted `replies` produces: every
   request sent is `req`; the k-th sleep follows the throttled k-th reply
   and lasts the wait it asks for; a returned reply is the first unthrottled
   one; and when nothing is returned, every reply was throttled.
   */
  predicate IsRunOf(req: Request, replies: seq<Json>, t: Trace) {
    && |t.sleeps| <= |replies|
    && |t.sent| == |t.sleeps| + (if t.outcome.Returned? then 1 else 0)
    && (forall k :: 0 <= k < |t.sent| ==> t.sent[k] == req)
    && (forall k :: 0 <= k < |t.sleeps| ==>
          IsThrottled(replies[k]) && t.sleeps[k] == ThrottleWait(replies[k]))
    && (t.outcome.Returned? ==>
          |t.sleeps| < |replies| && t.outcome.value == replies[|t.sleeps|] && !IsThrottled(t.outcome.value))
    && (t.outcome.Exhausted? ==> |t.sleeps| == |replies|)
  }

  /** The retry recursion shared by the four verbs. */
  function Execute(req: Request, replies: seq<Json>): (t: Trace)
    ensures IsRunOf(req, replies, t)
    decreases |replies|
  {
    if replies == [] then
      Trace(Exhausted, [], [])
    else if IsThrottled(replies[0]) then
      var rest := Execute(req, replies[1..]);
      Trace(rest.outcome, [ThrottleWait(replies[0])] + rest.sleeps, [req] + rest.sent)
    else
      Trace(Returned(replies[0]), [], [req])
  }

  /** The run is determined: two traces that both fit the script are the same trace. */
  lemma RunIsUnique(req: Request, replies: seq<Json>, t1: Trace, t2: Trace)
    requires IsRunOf(req, replies, t1) && IsRunOf(req, replies, t2)
    ensures t1 == t2
  {
  }

  /** An unthrottled first reply is returned as it is, after one send and no sleep. */
  lemma UnthrottledReplyReturnedAtOnce(req: Request, replies: seq<Json>)
    requires |replies| >= 1 && !IsThrottled(replies[0])
    ensures Execute(req, replies) == Trace(Returned(replies[0]), [], [req])
  {
  }

  /** A failed transfer or decode yields null, which is returned, not retried. */
  lemma NullReturnedWithoutRetry(req: Request, later: seq<Json>)
    ensures Execute(req, [Null] + later) == Trace(Returned(Null), [], [req])
  {
    OnlyObjectsThrottled(Null);
  }

  /**
   The call returns the first unthrottled reply, after one sleep per
   throttled reply before it.
   */
  lemma ReturnsFirstUnthrottled(req: Request, replies: seq<Json>, k: nat)
    requires k < |replies| && !IsThrottled(replies[k])
    requires forall j :: 0 <= j < k ==> IsThrottled(replies[j])
    ensures Execute(req, replies).outcome == Returned(replies[k])
    ensures |Execute(req, replies).sleeps| == k
    ensures |Execute(req, replies).sent| == k + 1
  {
  }

  /** If every reply is throttled, the call never returns a reply. */
  lemma AllThrottledExhausts(req: Request, replies: seq<Json>)
    requires forall j :: 0 <= j < |replies| ==> IsThrottled(replies[j])
    ensures Execute(req, replies).outcome == Exhausted
    ensures |Execute(req, replies).sent| == |replies|
  {
  }

  /** Replies after the one returned are never consumed. */
  lemma {:induction false} LaterRepliesIgnored(req: Request, replies: seq<Json>, later: seq<Json>)
    requires Execute(req, replies).outcome.Returned?
    ensures Execute(req, replies + later) == Execute(req, replies)
    decreases |replies|
  {
    assert (replies + later)[0] == replies[0];
    if IsThrottled(replies[0]) {
      assert (replies + later)[1..] == replies[1..] + later;
      LaterRepliesIgnored(req, replies[1..], later);
    }
  }

  function TotalSleep(sleeps: seq<nat>): nat {
    if sleeps == [] then 0 else sleeps[0] + TotalSleep(sleeps[1..])
  }

  /** Every retry costs at least the margin: the total sleep grows with the number of retries. */
  lemma {:induction false} TotalSleepAtLeastMargin(req: Request, replies: seq<Json>)
    ensures TotalSleep(Execute(req, replies).sleeps) >= WaitTime.Margin * |Execute(req, replies).sleeps|
    decreases |replies|
  {
    if replies != [] && IsThrottled(replies[0]) {
      TotalSleepAtLeastMargin(req, replies[1..]);
      var t := Execute(req, replies);
      assert t.sleeps[1..] == Execute(req, replies[1..]).sleeps;
    }
  }

  /** `post($url, $encodedTask)`: the body is the caller's encoded payload. */
  function PostCall(url: string, encoded: string, replies: seq<Json>): (t: Trace)
    ensures IsRunOf(Request(Post, url, Some(encoded)), replies, t)
  {
    Execute(Request(Post, url, Some(encoded)), replies)
  }

  /** `put($url, $task)`: the body is `http_build_query($task)`, an encoder passed in. */
  function PutCall(url: string, task: Json, buildQuery: Json -> string, replies: seq<Json>): (t: Trace)
    ensures IsRunOf(Request(Put, url, Some(buildQuery(task))), replies, t)
  {
    Execute(Request(Put, url, Some(buildQuery(task))), replies)
  }

  /** `get($url)`: no body. */
  function GetCall(url: string, replies: seq<Json>): (t: Trace)
    ensures IsRunOf(Request(Get, url, None), replies, t)
  {
    Execute(Request(Get, url, None), replies)
  }

  /** `delete($url)`: no body. */
  function DeleteCall(url: string, replies: seq<Json>): (t: Trace)
    ensures IsRunOf(Request(Delete, url, None), replies, t)
  {
    Execute(Request(Delete, url, None), replies)
  }
}
