/**
 * The message dispatcher (send_print.go): the (message kind x run mode) routing table, the
 * reviewer fan-out, `sendMessage` and the single-retry rate-limit policy shared by every
 * platform call. The platform is a function from a request and an attempt number (0 for the
 * first try, 1 for the retry) to that attempt's outcome; the `fmt.Sscanf` parse of the
 * rate-limit message is the parameter `waitOf`, which yields the wait it finds in an error text.
 */
module Dispatch {
  import opened Wrappers

  datatype MessageType = Send | ReviewOnly | SendAndReview | DmOnly | PrintOnly | OtherType(code: int)

  datatype Mode = PrintEverything | DmForReview | DmForTesting | FullSend

  /** The configuration constants the dispatcher reads. */
  datatype Config = Config(
    runMode: Mode,
    emojiChannel: string,
    ownerUserId: string,
    additionalReviewerIds: seq<string>)

  /** Where one logical message goes. */
  datatype Route = Print | Channel | Owner | Reviewers | Drop

  /** A `PostMessage` call: destination, text, and the thread option when one is attached. */
  datatype PostRequest = PostRequest(dest: string, text: string, threadTs: Option<string>)

  /** The switch of `printMessageWithThreadId`. */
  function RouteFor(kind: MessageType, mode: Mode): (r: Route)
    // print-only and unknown kinds print whatever the mode
    ensures kind.PrintOnly? || kind.OtherType? ==> r == Print
    // review-only messages reach the reviewers in review mode and nobody otherwise
    ensures kind.ReviewOnly? ==> r == (if mode == DmForReview then Reviewers else Drop)
    // only review-only messages are ever dropped
    ensures r == Drop ==> kind.ReviewOnly?
    // nothing leaves the console when printing everything
    ensures mode == PrintEverything ==> r == Print || r == Drop
    // the public channel is reached only in full-send mode, the reviewers only in review mode,
    // and the owner alone only in testing mode
    ensures r == Channel ==> mode == FullSend
    ensures r == Reviewers ==> mode == DmForReview
    ensures r == Owner ==> mode == DmForTesting
    // a plain send reaches the channel or the owner exactly in the modes that send
    ensures kind.Send? ==> (r == Channel <==> mode == FullSend) && (r == Owner <==> mode == DmForTesting)
  {
    match kind
    case Send =>
      (match mode
       case PrintEverything => Print
       case FullSend => Channel
       case DmForReview => Print
       case DmForTesting => Owner)
    case ReviewOnly =>
      if mode == DmForReview then Reviewers else Drop
    case SendAndReview =>
      (match mode
       case PrintEverything => Print
       case FullSend => Channel
       case DmForReview => Reviewers
       case DmForTesting => Owner)
    case DmOnly =>
      (match mode
       case PrintEverything => Print
       case FullSend => Print
       case DmForReview => Reviewers
       case DmForTesting => Print)
    case PrintOnly => Print
    case OtherType(_) => Print
  }

  /** The wait a rate-limit error asks for, when it asks for a non-zero one. */
  function RetryWait(error: string, waitOf: string -> Option<int>): (w: Option<int>)
    ensures w.Some? ==> w.value != 0 && waitOf(error) == w
    ensures w.None? ==> waitOf(error).None? || waitOf(error) == Some(0)
  {
    match waitOf(error)
    case Some(d) => if d == 0 then None else Some(d)
    case None => None
  }

  /**
   * The single-retry policy of `sendMessage`, `GetConversationsWithBackoff` and
   * `GetConversationHistoryWithBackoff`: one attempt; when it fails with a parsable non-zero
   * rate-limit wait, sleep that long and try exactly once more. `slept` records the requested sleep.
   */
  method WithBackoff<T>(attempt: nat -> Result<T>, waitOf: string -> Option<int>)
    returns (r: Result<T>, attempts: nat, slept: Option<int>)
    ensures attempts == 1 || attempts == 2
    ensures attempts == 2 <==> attempt(0).Err? && RetryWait(attempt(0).error, waitOf).Some?
    ensures attempts == 1 ==> r == attempt(0) && slept == None
    ensures attempts == 2 ==> r == attempt(1) && slept == RetryWait(attempt(0).error, waitOf)
  {
    r := attempt(0);
    attempts, slept := 1, None;
    if r.Err? {
      var wait := waitOf(r.error);
      if wait.None? || wait.value == 0 {
        return;
      }
      slept := wait;
      r := attempt(1);
      attempts := 2;
    }
  }

  /** The outcome of one `sendMessage` call, retry included. */
  function Sent(platform: (PostRequest, nat) -> Result<string>, waitOf: string -> Option<int>, q: PostRequest): Result<string> {
    var first := platform(q, 0);
    if first.Err? && RetryWait(first.error, waitOf).Some? then platform(q, 1) else first
  }

  /** The request `sendMessage` builds: the thread option is attached iff `threadId` is not empty. */
  function PostFor(dest: string, text: string, threadId: string): (q: PostRequest)
    ensures q.dest == dest && q.text == text
    ensures q.threadTs.Some? <==> threadId != ""
    ensures q.threadTs.Some? ==> q.threadTs.value == threadId
  {
    PostRequest(dest, text, if threadId != "" then Some(threadId) else None)
  }

  /** `sendMessage`: post once, retrying once on a rate-limit error. */
  method SendMessage(platform: (PostRequest, nat) -> Result<string>, waitOf: string -> Option<int>,
                     dest: string, text: string, threadId: string)
    returns (r: Result<string>, attempts: nat)
    ensures 1 <= attempts <= 2
    ensures attempts == 2 <==> platform(PostFor(dest, text, threadId), 0).Err? &&
                               RetryWait(platform(PostFor(dest, text, threadId), 0).error, waitOf).Some?
    ensures r == Sent(platform, waitOf, PostFor(dest, text, threadId))
  {
    var q := PostFor(dest, text, threadId);
    var slept;
    r, attempts, slept := WithBackoff(k => platform(q, k), waitOf);
  }

  /** The recipients of a reviewer fan-out: the additional reviewers, then the owner. */
  function ReviewerIds(cfg: Config): seq<string> {
    cfg.additionalReviewerIds + [cfg.ownerUserId]
  }

  /**
   * What a fan-out to `ids` did, as written: one request per recipient reached, in order, the
   * thread only on the first; every send but the last reached one succeeded; an error stops
   * the fan-out and is returned; success reaches everyone and returns "".
   */
  ghost predicate FanOutOutcome(platform: (PostRequest, nat) -> Result<string>, waitOf: string -> Option<int>,
                                ids: seq<string>, text: string, threadId: string,
                                r: Result<string>, requests: seq<PostRequest>)
  {
    && |requests| <= |ids|
    && (forall k :: 0 <= k < |requests| ==>
          requests[k] == PostFor(ids[k], text, if k == 0 then threadId else ""))
    && (forall k :: 0 <= k < |requests| - 1 ==> Sent(platform, waitOf, requests[k]).Ok?)
    && (r.Err? <==> |requests| > 0 && Sent(platform, waitOf, requests[|requests| - 1]).Err?)
    && (r.Err? ==> r == Sent(platform, waitOf, requests[|requests| - 1]))
    && (r.Ok? ==> |requests| == |ids| && r.value == "")
  }

  /**
   * The reviewer loop of `printMessageWithThreadId` as written: `firstTS` is only assigned when
   * it is already non-empty, so a successful fan-out always returns "".
   */
  method FanOut(platform: (PostRequest, nat) -> Result<string>, waitOf: string -> Option<int>,
                ids: seq<string>, text: string, threadId: string)
    returns (r: Result<string>, requests: seq<PostRequest>)
    ensures FanOutOutcome(platform, waitOf, ids, text, threadId, r, requests)
  {
    var firstTS := "";
    var thread := threadId;
    requests := [];
    for i := 0 to |ids|
      invariant |requests| == i
      invariant thread == if i == 0 then threadId else ""
      invariant firstTS == ""
      invariant forall k :: 0 <= k < i ==> requests[k] == PostFor(ids[k], text, if k == 0 then threadId else "")
      invariant forall k :: 0 <= k < i ==> Sent(platform, waitOf, requests[k]).Ok?
    {
      var ts, attempts := SendMessage(platform, waitOf, ids[i], text, thread);
      requests := requests + [PostFor(ids[i], text, thread)];
      if ts.Err? {
        return ts, requests;
      }
      var ts' := ts.value;
      thread := "";
      if firstTS != "" {
        firstTS := ts';
      }
    }
    return Ok(firstTS), requests;
  }

  /** A platform on which every post succeeds with the same message id. */
  function AlwaysPosted(q: PostRequest, attempt: nat): Result<string> {
    Ok("1700000000.000100")
  }

  function NoRateLimit(error: string): Option<int> {
    None
  }

  /** As written, the fan-out loses the message id: even when every send succeeds with a
      non-empty id, it reaches every reviewer and returns "". */
  lemma FanOutLosesTimestamp(ids: seq<string>, text: string, threadId: string, r: Result<string>, requests: seq<PostRequest>)
    requires |ids| > 0
    requires FanOutOutcome(AlwaysPosted, NoRateLimit, ids, text, threadId, r, requests)
    ensures |requests| == |ids|
    ensures Sent(AlwaysPosted, NoRateLimit, requests[0]) == Ok("1700000000.000100")
    ensures r == Ok("")
  {
    assert forall q :: Sent(AlwaysPosted, NoRateLimit, q).Ok?;
  }

  /** The first non-empty message id the sends of `requests` returned, or "" when all are empty. */
  function FirstId(platform: (PostRequest, nat) -> Result<string>, waitOf: string -> Option<int>,
                   requests: seq<PostRequest>): string
    requires forall k :: 0 <= k < |requests| ==> Sent(platform, waitOf, requests[k]).Ok?
  {
    if |requests| == 0 then ""
    else if Sent(platform, waitOf, requests[0]).value != "" then Sent(platform, waitOf, requests[0]).value
    else FirstId(platform, waitOf, requests[1..])
  }

  /** One more successful send changes the first id only while it is still "". */
  lemma {:induction false} FirstIdSnoc(platform: (PostRequest, nat) -> Result<string>, waitOf: string -> Option<int>,
                                       requests: seq<PostRequest>, q: PostRequest)
    requires forall k :: 0 <= k < |requests| ==> Sent(platform, waitOf, requests[k]).Ok?
    requires Sent(platform, waitOf, q).Ok?
    ensures FirstId(platform, waitOf, requests + [q]) ==
      if FirstId(platform, waitOf, requests) != "" then FirstId(platform, waitOf, requests) else Sent(platform, waitOf, q).value
  {
    if |requests| > 0 {
      assert (requests + [q])[1..] == requests[1..] + [q];
      FirstIdSnoc(platform, waitOf, requests[1..], q);
    } else {
      assert ([q])[1..] == [];
    }
  }

  /** The fan-out with the evidently intended test: the first reviewer's message id is kept. */
  method FanOutFirstTs(platform: (PostRequest, nat) -> Result<string>, waitOf: string -> Option<int>,
                       ids: seq<string>, text: string, threadId: string)
    returns (r: Result<string>, requests: seq<PostRequest>)
    ensures |requests| <= |ids|
    ensures forall k :: 0 <= k < |requests| ==> requests[k] == PostFor(ids[k], text, if k == 0 then threadId else "")
    ensures r.Err? <==> |requests| > 0 && Sent(platform, waitOf, requests[|requests| - 1]).Err?
    ensures r.Ok? ==> |requests| == |ids|
    ensures r.Ok? ==> forall k :: 0 <= k < |requests| ==> Sent(platform, waitOf, requests[k]).Ok?
    ensures r.Ok? && |ids| > 0 && Sent(platform, waitOf, requests[0]).value != "" ==>
      r.value == Sent(platform, waitOf, requests[0]).value
    ensures r.Ok? ==> r.value == FirstId(platform, waitOf, requests)
    ensures r.Err? ==> r == Sent(platform, waitOf, requests[|requests| - 1])
  {
    var firstTS := "";
    var thread := threadId;
    requests := [];
    for i := 0 to |ids|
      invariant |requests| == i
      invariant thread == if i == 0 then threadId else ""
      invariant forall k :: 0 <= k < i ==> requests[k] == PostFor(ids[k], text, if k == 0 then threadId else "")
      invariant forall k :: 0 <= k < i ==> Sent(platform, waitOf, requests[k]).Ok?
      invariant i == 0 ==> firstTS == ""
      invariant i > 0 && Sent(platform, waitOf, requests[0]).value != "" ==>
        firstTS == Sent(platform, waitOf, requests[0]).value
      invariant firstTS == FirstId(platform, waitOf, requests)
    {
      var ts, attempts := SendMessage(platform, waitOf, ids[i], text, thread);
      if ts.Ok? {
        FirstIdSnoc(platform, waitOf, requests, PostFor(ids[i], text, thread));
      }
      requests := requests + [PostFor(ids[i], text, thread)];
      if ts.Err? {
        return ts, requests;
      }
      thread := "";
      if firstTS == "" {
        firstTS := ts.value;
      }
    }
    return Ok(firstTS), requests;
  }

  /** The console text of a printed message. */
  function Printed(text: string): string {
    "\n\n" + text + "\n\n"
  }

  /**
   * `printMessageWithThreadId`: route the message by the table and perform that route.
   * `printed` is what went to the console; `requests` the platform requests made.
   */
  method PrintMessageWithThreadId(cfg: Config, platform: (PostRequest, nat) -> Result<string>,
                                  waitOf: string -> Option<int>, kind: MessageType, text: string, threadId: string)
    returns (r: Result<string>, printed: Option<string>, requests: seq<PostRequest>)
    ensures printed.Some? <==> RouteFor(kind, cfg.runMode) == Print
    ensures printed.Some? ==> printed.value == Printed(text) && r == Ok("") && requests == []
    ensures RouteFor(kind, cfg.runMode) == Drop ==> r == Ok("") && requests == []
    ensures RouteFor(kind, cfg.runMode) == Channel ==>
      requests == [PostFor(cfg.emojiChannel, text, threadId)] && r == Sent(platform, waitOf, requests[0])
    ensures RouteFor(kind, cfg.runMode) == Owner ==>
      requests == [PostFor(cfg.ownerUserId, text, threadId)] && r == Sent(platform, waitOf, requests[0])
    ensures RouteFor(kind, cfg.runMode) == Reviewers ==>
      FanOutOutcome(platform, waitOf, ReviewerIds(cfg), text, threadId, r, requests)
  {
    printed, requests := None, [];
    match RouteFor(kind, cfg.runMode)
    case Print =>
      printed, r := Some(Printed(text)), Ok("");
    case Drop =>
      r := Ok("");
    case Channel =>
      var attempts;
      r, attempts := SendMessage(platform, waitOf, cfg.emojiChannel, text, threadId);
      requests := [PostFor(cfg.emojiChannel, text, threadId)];
    case Owner =>
      var attempts;
      r, attempts := SendMessage(platform, waitOf, cfg.ownerUserId, text, threadId);
      requests := [PostFor(cfg.ownerUserId, text, threadId)];
    case Reviewers =>
      r, requests := FanOut(platform, waitOf, ReviewerIds(cfg), text, threadId);
  }
}
