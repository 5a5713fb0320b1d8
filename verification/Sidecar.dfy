/**
 The NATS sidecar: one delivery of a message posts it to the function until it answers 2xx, then
 acknowledges; the server redelivers what is not acknowledged, at most three times in all.
 */
module Sidecar {
  import opened Wrappers
  import opened Subjects
  import Backoff

  datatype Msg = Msg(subject: string, eventID: string, data: string)

  /** An HTTP request to the function. The id header is left out when the message has no id. */
  datatype Post = Post(data: string, eventID: Option<string>, eventType: string)

  datatype Reply = NoReply | Status(code: int)

  /** What one attempt meets. */
  datatype Attempt = Attempt(cancelled: bool, built: bool, reply: Reply)

  datatype Verdict = Processed | AckFailed | Cancelled | BadRequest | Exhausted

  predicate Success(r: Reply) {
    r.Status? && 200 <= r.code < 300
  }

  function EventTypeFromSubject(subject: string): string {
    var parts := Tokens(subject);
    if |parts| >= 2 && parts[1] == "storage" then "StorageEvent" else "DatabaseChange"
  }

  function PostOf(m: Msg): Post {
    Post(m.data, if m.eventID == "" then None else Some(m.eventID), EventTypeFromSubject(m.subject))
  }

  datatype Delivery = Delivery(posts: seq<Post>, pauses: seq<int>, verdict: Verdict)

  /** One delivery from its `attempt`-th attempt on. */
  function From(m: Msg, maxRetries: int, tries: seq<Attempt>, ackOk: bool, attempt: nat): Delivery
    requires |tries| > maxRetries
    decreases maxRetries + 1 - attempt
  {
    if attempt > maxRetries then Delivery([], [], Exhausted)
    else
      var t := tries[attempt];
      if t.cancelled then Delivery([], [], Cancelled)
      else if !t.built then Delivery([], [], BadRequest)
      else if Success(t.reply) then Delivery([PostOf(m)], [], if ackOk then Processed else AckFailed)
      else
        var d := From(m, maxRetries, tries, ackOk, attempt + 1);
        Delivery([PostOf(m)] + d.posts, [Backoff.Delay(attempt)] + d.pauses, d.verdict)
  }

  class Consumer {
    const maxRetries: int
    var posts: seq<Post>
    var pauses: seq<int>
    var acks: nat
    var naks: nat

    constructor (maxRetries: int)
      ensures this.maxRetries == maxRetries && posts == [] && pauses == [] && acks == naks == 0
    {
      this.maxRetries, posts, pauses, acks, naks := maxRetries, [], [], 0, 0;
    }

    method ProcessMessage(m: Msg, tries: seq<Attempt>, ackOk: bool) returns (v: Verdict)
      requires |tries| > maxRetries
      modifies this
      ensures var d := From(m, maxRetries, tries, ackOk, 0);
        && v == d.verdict && posts == old(posts) + d.posts && pauses == old(pauses) + d.pauses
        && acks == old(acks) + (if v.Processed? || v.AckFailed? then 1 else 0)
        && naks == old(naks) + (if v.Exhausted? then 1 else 0)
    {
      hide PostOf, Success;
      ghost var whole := From(m, maxRetries, tries, ackOk, 0);
      var attempt := 0;
      while attempt <= maxRetries
        invariant acks == old(acks) && naks == old(naks)
        invariant var d := From(m, maxRetries, tries, ackOk, attempt);
          whole.verdict == d.verdict && posts + d.posts == old(posts) + whole.posts
          && pauses + d.pauses == old(pauses) + whole.pauses
        decreases maxRetries - attempt
      {
        ghost var rest := From(m, maxRetries, tries, ackOk, attempt + 1);
        var t := tries[attempt];
        if t.cancelled {
          return Cancelled;
        }
        if !t.built {
          return BadRequest;
        }
        ghost var before := posts;
        ghost var slept := pauses;
        posts := posts + [PostOf(m)];
        if Success(t.reply) {
          acks := acks + 1;
          return if ackOk then Processed else AckFailed;
        }
        pauses := pauses + [Backoff.Delay(attempt)];
        assert posts + rest.posts == before + ([PostOf(m)] + rest.posts);
        assert pauses + rest.pauses == slept + ([Backoff.Delay(attempt)] + rest.pauses);
        attempt := attempt + 1;
      }
      naks := naks + 1;
      v := Exhausted;
    }
  }

  // One delivery

  /** The number of attempts a delivery may make. */
  function Attempts(maxRetries: int): nat {
    if maxRetries < 0 then 0 else maxRetries + 1
  }

  /** The function answered with a code of the two hundreds. */
  predicate Answered(r: Reply) {
    r.Status? && r.code / 100 == 2
  }

  /** An attempt that fails and is followed by the next. */
  predicate Fails(t: Attempt) {
    !t.cancelled && t.built && !Answered(t.reply)
  }

  /** The message's own data and id, an empty id left out, and the type its subject names. */
  predicate Carries(p: Post, m: Msg) {
    && p.data == m.data
    && (m.eventID == "" ==> p.eventID.None?) && (m.eventID != "" ==> p.eventID == Some(m.eventID))
    && (p.eventType == "StorageEvent" || p.eventType == "DatabaseChange")
    && (p.eventType == "StorageEvent" <==> |Tokens(m.subject)| >= 2 && Tokens(m.subject)[1] == "storage")
  }

  predicate PostsOnly(posts: seq<Post>, m: Msg) {
    forall i :: 0 <= i < |posts| ==> Carries(posts[i], m)
  }

  lemma PostCarries(m: Msg)
    ensures Carries(PostOf(m), m)
  {
    assert "StorageEvent"[0] != "DatabaseChange"[0];
  }

  /** The pauses from attempt `attempt` on. */
  predicate PausesFrom(pauses: seq<int>, attempt: nat) {
    forall i :: 0 <= i < |pauses| ==> pauses[i] == Backoff.Delay(attempt + i)
  }

  lemma PauseFirst(rest: seq<int>, attempt: nat)
    requires PausesFrom(rest, attempt + 1)
    ensures PausesFrom([Backoff.Delay(attempt)] + rest, attempt)
  {
    hide Backoff.Delay;
    var all := [Backoff.Delay(attempt)] + rest;
    forall i | 0 <= i < |all|
      ensures all[i] == Backoff.Delay(attempt + i)
    {
      if i > 0 {
        assert all[i] == rest[i - 1];
        assert attempt + 1 + (i - 1) == attempt + i;
      }
    }
  }

  /** Attempt `k` is the first that does not simply fail. */
  predicate StopsAt(tries: seq<Attempt>, attempt: nat, k: nat) {
    attempt <= k < |tries| && !Fails(tries[k]) && forall i :: attempt <= i < k ==> Fails(tries[i])
  }

  lemma {:induction false} StopDecides(m: Msg, maxRetries: int, tries: seq<Attempt>, ackOk: bool, attempt: nat, k: nat)
    requires |tries| > maxRetries && k <= maxRetries && StopsAt(tries, attempt, k)
    ensures var d := From(m, maxRetries, tries, ackOk, attempt);
      && PostsOnly(d.posts, m)
      && d.verdict == (if tries[k].cancelled then Cancelled
                       else if !tries[k].built then BadRequest
                       else if ackOk then Processed else AckFailed)
      && |d.posts| == k - attempt + (if Answered(tries[k].reply) && !tries[k].cancelled && tries[k].built then 1 else 0)
      && |d.pauses| == k - attempt && PausesFrom(d.pauses, attempt)
    decreases k - attempt
  {
    PostCarries(m);
    hide PostOf, PausesFrom, Carries;
    if attempt < k {
      StopDecides(m, maxRetries, tries, ackOk, attempt + 1, k);
      PauseFirst(From(m, maxRetries, tries, ackOk, attempt + 1).pauses, attempt);
    } else {
      NoPause(attempt);
    }
  }

  lemma {:induction false} NoStopExhausts(m: Msg, maxRetries: int, tries: seq<Attempt>, ackOk: bool, attempt: nat)
    requires |tries| > maxRetries && attempt <= Attempts(maxRetries)
    requires forall i :: attempt <= i <= maxRetries ==> Fails(tries[i])
    ensures var d := From(m, maxRetries, tries, ackOk, attempt);
      PostsOnly(d.posts, m) && d.verdict.Exhausted? && |d.posts| == |d.pauses| == Attempts(maxRetries) - attempt
      && PausesFrom(d.pauses, attempt)
    decreases Attempts(maxRetries) - attempt
  {
    PostCarries(m);
    hide PostOf, PausesFrom, Carries;
    if attempt <= maxRetries {
      NoStopExhausts(m, maxRetries, tries, ackOk, attempt + 1);
      PauseFirst(From(m, maxRetries, tries, ackOk, attempt + 1).pauses, attempt);
    } else {
      NoPause(attempt);
    }
  }

  lemma NoPause(attempt: nat)
    ensures PausesFrom([], attempt)
  {
  }

  lemma {:induction false} StopOrNot(tries: seq<Attempt>, attempt: nat, end: nat) returns (k: nat)
    requires attempt <= end <= |tries|
    ensures if k < end then StopsAt(tries, attempt, k) else k == end && forall i :: attempt <= i < end ==> Fails(tries[i])
    decreases end - attempt
  {
    if attempt == end || !Fails(tries[attempt]) {
      k := attempt;
    } else {
      k := StopOrNot(tries, attempt + 1, end);
    }
  }

  /**
   A delivery posts the message, unchanged, at most maxRetries + 1 times; it attempts an ack
   exactly when the last post was answered 2xx, and a nak exactly when every attempt was made and
   failed. It pauses after each failed post, longer each time. A negative limit means no post and a
   nak.
   */
  lemma DeliveryFacts(m: Msg, maxRetries: int, tries: seq<Attempt>, ackOk: bool)
    requires |tries| > maxRetries
    ensures var d := From(m, maxRetries, tries, ackOk, 0);
      && PostsOnly(d.posts, m) && |d.posts| <= Attempts(maxRetries)
      && PausesFrom(d.pauses, 0) && |d.posts| - 1 <= |d.pauses| <= |d.posts|
      && (d.verdict.Processed? || d.verdict.AckFailed? <==>
            |d.posts| > 0 && Answered(tries[|d.posts| - 1].reply) && Acks(tries, |d.posts| - 1))
      && (d.verdict.Processed? ==> ackOk)
      && (d.verdict.Exhausted? <==> forall i :: 0 <= i <= maxRetries ==> Fails(tries[i]))
      && (d.verdict.Exhausted? ==> |d.posts| == Attempts(maxRetries))
  {
    var k := StopOrNot(tries, 0, Attempts(maxRetries));
    hide From, PostOf, PausesFrom, Carries;
    if k < Attempts(maxRetries) {
      StopDecides(m, maxRetries, tries, ackOk, 0, k);
    } else {
      NoStopExhausts(m, maxRetries, tries, ackOk, 0);
    }
  }

  /** Attempt `k` reached the function, and all before it failed. */
  predicate Acks(tries: seq<Attempt>, k: nat)
    requires k < |tries|
  {
    !tries[k].cancelled && tries[k].built && forall i :: 0 <= i < k ==> Fails(tries[i])
  }

  // Redelivery

  const MAX_DELIVER: nat := 3

  /** One delivery as the server sees it; `registered` says whether a failed ack reached it all the same. */
  datatype Round = Round(tries: seq<Attempt>, ackOk: bool, registered: bool)

  predicate Settles(m: Msg, maxRetries: int, r: Round)
    requires |r.tries| > maxRetries
  {
    var v := From(m, maxRetries, r.tries, r.ackOk, 0).verdict;
    v.Processed? || (v.AckFailed? && r.registered)
  }

  /** All posts of an event: the server delivers until the event is acknowledged or the limit is reached. */
  function AllPosts(m: Msg, maxRetries: int, rounds: seq<Round>, delivered: nat): seq<Post>
    requires forall i :: 0 <= i < |rounds| ==> |rounds[i].tries| > maxRetries
    decreases |rounds|
  {
    if rounds == [] || delivered >= MAX_DELIVER then []
    else
      From(m, maxRetries, rounds[0].tries, rounds[0].ackOk, 0).posts
      + if Settles(m, maxRetries, rounds[0]) then [] else AllPosts(m, maxRetries, rounds[1..], delivered + 1)
  }

  /** An event is posted at most 3 (maxRetries + 1) times, always with its own data. */
  lemma {:induction false} PostsBounded(m: Msg, maxRetries: int, rounds: seq<Round>, delivered: nat)
    requires delivered <= MAX_DELIVER && forall i :: 0 <= i < |rounds| ==> |rounds[i].tries| > maxRetries
    ensures PostsOnly(AllPosts(m, maxRetries, rounds, delivered), m)
    ensures |AllPosts(m, maxRetries, rounds, delivered)| <= (MAX_DELIVER - delivered) * Attempts(maxRetries)
    ensures maxRetries >= 0 && delivered == 0 ==> |AllPosts(m, maxRetries, rounds, delivered)| <= 3 * (maxRetries + 1)
    decreases |rounds|
  {
    hide From, PostOf, Settles, Carries;
    if rounds != [] && delivered < MAX_DELIVER {
      DeliveryFacts(m, maxRetries, rounds[0].tries, rounds[0].ackOk);
      PostsBounded(m, maxRetries, rounds[1..], delivered + 1);
      OneMore(MAX_DELIVER - delivered - 1, Attempts(maxRetries));
    } else {
      OneMore(MAX_DELIVER - delivered, Attempts(maxRetries));
    }
  }

  lemma OneMore(k: nat, a: nat)
    ensures (k + 1) * a == k * a + a && k * a >= 0
  {
  }

  /** An event the server counts as acknowledged was answered 2xx by the function. */
  lemma SettledWasAnswered(m: Msg, maxRetries: int, r: Round)
    requires |r.tries| > maxRetries && Settles(m, maxRetries, r)
    ensures exists k :: 0 <= k < |r.tries| && Answered(r.tries[k].reply) && Acks(r.tries, k)
  {
    hide From;
    DeliveryFacts(m, maxRetries, r.tries, r.ackOk);
  }

  lemma SourceToken(prefix: string, op: string, projectID: string, name: string)
    requires prefix == DATABASE || prefix == STORAGE
    ensures var ts := Tokens(Compose(prefix, op, projectID, name)); |ts| >= 2 && ts[1] == Source(prefix)
  {
    hide *;
    TokensOfCompose(prefix, op, projectID, name);
    PrefixTokens(prefix);
  }

  /** The type header tells the two publishers apart, whatever project, table or bucket they write for. */
  lemma EventTypes(projectID: string, operation: string, name: string)
    ensures EventTypeFromSubject(CdcSubject(DATABASE, projectID, operation, name)) == "DatabaseChange"
    ensures EventTypeFromSubject(StorageSubject(STORAGE, operation, projectID, name)) == "StorageEvent"
  {
    LiteralTokens();
    hide Tokens, Compose, OperationToSubject;
    SourceToken(DATABASE, OperationToSubject(operation), projectID, name);
    SourceToken(STORAGE, operation, projectID, name);
  }
}
