/** relay/client.go: the retry loop with its idempotency key, alone and among concurrent senders. */
module Relay {
  import opened GoValues
  import opened Models
  import opened RemoteConfig

  const MAX_ATTEMPTS := 3

  /** What http.Client.Do yields for one attempt: an error, or a status and whatever decodable
      config block the body carries. */
  datatype Outcome = Failed | Answered(status: int, config: Option<Delivery>)

  predicate Success(status: int) {
    200 <= status < 300
  }

  predicate HardError(status: int) {
    400 <= status < 500 && status != 429
  }

  /** The attempt settles the matter: delivered, or rejected for good. */
  predicate Final(o: Outcome) {
    o.Answered? && (Success(o.status) || HardError(o.status))
  }

  datatype SendResult = Delivered | Rejected(status: int) | Exhausted(last: Outcome)

  /** One POST: the same id and body for every attempt of an event. */
  datatype Post = Post(eventID: string, body: EventPayload)

  function Minted(eventID: string, freshID: string): string {
    if eventID == "" then freshID else eventID
  }

  /** How many attempts are made when attempt k ends in relay(k). */
  function Attempts(relay: nat -> Outcome): nat {
    if Final(relay(0)) then 1 else if Final(relay(1)) then 2 else MAX_ATTEMPTS
  }

  /** Seconds slept before attempt n is over, and the backoff then in force. */
  function Slept(n: nat): nat {
    if n <= 1 then 0 else if n == 2 then 1 else 3
  }

  function Backoff(n: nat): nat {
    if n <= 1 then 1 else if n == 2 then 2 else 4
  }

  lemma {:induction false} AttemptCounted(relay: nat -> Outcome, attempt: nat)
    requires attempt < MAX_ATTEMPTS && attempt <= Attempts(relay)
    requires attempt > 0 ==> !Final(relay(attempt - 1))
    ensures attempt < Attempts(relay)
    ensures Final(relay(attempt)) ==> Attempts(relay) == attempt + 1
  {
  }

  function ResultOf(last: Outcome): SendResult {
    if last.Answered? && Success(last.status) then Delivered
    else if last.Answered? && HardError(last.status) then Rejected(last.status)
    else Exhausted(last)
  }

  /** readConfig: a block that arrives with an answer goes to the store, whatever the status. */
  function Heard(s: StoreState, o: Outcome): StoreState {
    if o.Answered? && o.config.Some? then Applied(s, o.config.value) else s
  }

  /** The store after the first n answers. */
  function StoreAfter(s: StoreState, relay: nat -> Outcome, n: nat): StoreState {
    if n == 0 then s else Heard(StoreAfter(s, relay, n - 1), relay(n - 1))
  }

  class Client {
    const store: Store

    constructor (store: Store)
      ensures this.store == store
    {
      this.store := store;
    }

    method ReadConfig(config: Option<Delivery>)
      modifies store
      ensures store.View() == if config.None? then old(store.View()) else Applied(old(store.View()), config.value)
    {
      if config.None? {
        return;
      }
      var _ := store.Apply(config.value.version, config.value.values);
    }

    /** `relay` is the answer each attempt would get; `slept` sums up the backoff, in seconds. */
    method SendEvent(eventID: string, body: EventPayload, freshID: string, relay: nat -> Outcome)
      returns (result: SendResult, posts: seq<Post>, slept: nat)
      modifies store
      ensures |posts| == Attempts(relay)
      ensures forall p | p in posts :: p == Post(if eventID == "" then freshID else eventID, body)
      ensures result == ResultOf(relay(Attempts(relay) - 1))
      ensures store.View() == StoreAfter(old(store.View()), relay, Attempts(relay))
      ensures slept == Slept(Attempts(relay))
      ensures 1 <= |posts| <= 3 && slept == [0, 1, 3][|posts| - 1]
      ensures forall k | 0 <= k < 2 && k < |posts| :: |posts| > k + 1 <==>
                (relay(k).Answered? ==>
                   !(200 <= relay(k).status <= 299) && (relay(k).status == 429 || !(400 <= relay(k).status <= 499)))
      ensures forall k | 0 <= k < 3 && relay(k).Answered? && 200 <= relay(k).status <= 299 &&
                         (forall j | 0 <= j < k :: relay(j).Failed? || relay(j).status == 429) ::
                result == Delivered && |posts| == k + 1
    {
      RetriesExactly(relay);
      var id := Minted(eventID, freshID);
      var backoff := 1;
      var lastErr := Failed;
      posts, slept := [], 0;
      for attempt := 0 to MAX_ATTEMPTS
        invariant |posts| == attempt <= Attempts(relay)
        invariant forall p | p in posts :: p == Post(id, body)
        invariant attempt > 0 ==> lastErr == relay(attempt - 1) && !Final(lastErr)
        invariant slept == Slept(attempt) && backoff == Backoff(attempt)
        invariant store.View() == StoreAfter(old(store.View()), relay, attempt)
      {
        if attempt > 0 {
          slept := slept + backoff;
          backoff := backoff * 2;
        }
        posts := posts + [Post(id, body)];
        var answer := relay(attempt);
        AttemptCounted(relay, attempt);
        lastErr := answer;
        if answer.Failed? {
          continue;
        }
        ReadConfig(answer.config);
        if Success(answer.status) {
          return Delivered, posts, slept;
        }
        if HardError(answer.status) {
          return Rejected(answer.status), posts, slept;
        }
      }
      return Exhausted(lastErr), posts, slept;
    }
  }

  /** In plain statuses: an attempt that got no answer, or an answer that is neither 2xx nor a client
      error other than 429, is followed by another while fewer than three were made, and no other is;
      and the first 2xx after attempts that got no answer, or 429, delivers. */
  lemma {:induction false} RetriesExactly(relay: nat -> Outcome)
    ensures var n := Attempts(relay);
            && 1 <= n <= 3
            && (forall k | 0 <= k < 2 && k < n :: n > k + 1 <==>
                  (relay(k).Answered? ==>
                     !(200 <= relay(k).status <= 299) && (relay(k).status == 429 || !(400 <= relay(k).status <= 499))))
            && (ResultOf(relay(n - 1)) == Delivered <==> relay(n - 1).Answered? && 200 <= relay(n - 1).status <= 299)
            && (forall k | 0 <= k < 3 && relay(k).Answered? && 200 <= relay(k).status <= 299 &&
                           (forall j | 0 <= j < k :: relay(j).Failed? || relay(j).status == 429) ::
                  n == k + 1)
  {
    forall k | 0 <= k < 3 && relay(k).Answered? && 200 <= relay(k).status <= 299 &&
               (forall j | 0 <= j < k :: relay(j).Failed? || relay(j).status == 429)
      ensures Attempts(relay) == k + 1
    {
      assert k > 0 ==> relay(0).Failed? || relay(0).status == 429;
      assert k > 1 ==> relay(1).Failed? || relay(1).status == 429;
    }
  }

  /** The configuration blocks of the first n answers, whatever their statuses. */
  function Blocks(relay: nat -> Outcome, n: nat): seq<Delivery> {
    if n == 0 then []
    else
      var o := relay(n - 1);
      Blocks(relay, n - 1) + (if o.Answered? && o.config.Some? then [o.config.value] else [])
  }

  /** They all reach the store, in order. */
  lemma {:induction false} EveryBlockIsApplied(relay: nat -> Outcome, n: nat)
    ensures StoreAfter(EMPTY, relay, n) == ApplyAll(EMPTY, Blocks(relay, n))
  {
    if n > 0 {
      EveryBlockIsApplied(relay, n - 1);
      var o := relay(n - 1);
      if o.Answered? && o.config.Some? {
        assert (Blocks(relay, n - 1) + [o.config.value])[..|Blocks(relay, n - 1)|] == Blocks(relay, n - 1);
      } else {
        assert Blocks(relay, n - 1) + [] == Blocks(relay, n - 1);
      }
    }
  }

  /** What SendEvent did is what the relay's answers called for: nothing but the last attempt was
      final, a nil error means exactly that some attempt got a 2xx, and every attempt but a
      settling one used up the budget of three. */
  lemma {:induction false} AttemptsAreRight(relay: nat -> Outcome)
    ensures var n := Attempts(relay);
            && 1 <= n <= 3
            && (forall k | 0 <= k < n - 1 :: !Final(relay(k)))
            && (n < 3 ==> Final(relay(n - 1)))
            && (ResultOf(relay(n - 1)) == Delivered <==> exists k | 0 <= k < n :: relay(k).Answered? && Success(relay(k).status))
            && (ResultOf(relay(n - 1)).Exhausted? <==> forall k | 0 <= k < MAX_ATTEMPTS :: !Final(relay(k)))
  {
    var n := Attempts(relay);
    assert relay(n - 1).Answered? && Success(relay(n - 1).status) ==> ResultOf(relay(n - 1)) == Delivered;
  }

  // ----- Concurrent senders, a network that loses and delays, a relay that drops repeated ids -----

  datatype Phase = Ready(attempt: nat) | Waiting(attempt: nat) | Done(delivered: bool)

  datatype Sender = Sender(id: string, body: EventPayload, phase: Phase)

  datatype Request = Request(sender: nat, attempt: nat, post: Post)
  datatype Reply = Reply(sender: nat, attempt: nat, status: int)

  /** `sent` logs every request ever transmitted; `requests` and `replies` are under way;
      `effects` lists the ids the relay acted upon, in order. */
  datatype Net = Net(senders: seq<Sender>, sent: seq<Request>, requests: set<Request>, replies: set<Reply>, effects: seq<string>)

  const NO_TRAFFIC := Net([], [], {}, {}, [])

  datatype Action =
    | Begin(id: string, body: EventPayload)
    | Transmit(i: nat)
    | Process(request: Request, status: int, acted: bool)
    | LoseRequest(request: Request)
    | Receive(reply: Reply)
    | LoseReply(reply: Reply)
    | GiveUp(i: nat)

  predicate Known(net: Net, id: string) {
    exists i | 0 <= i < |net.senders| :: net.senders[i].id == id
  }

  function WithPhase(net: Net, i: nat, phase: Phase): Net
    requires i < |net.senders|
  {
    net.(senders := net.senders[i := net.senders[i].(phase := phase)])
  }

  /** Where SendEvent's loop stands after attempt k had this outcome. */
  function AfterAttempt(attempt: nat, o: Outcome): Phase {
    if Final(o) then Done(Success(o.status))
    else if attempt + 1 < MAX_ATTEMPTS then Ready(attempt + 1)
    else Done(false)
  }

  function PhaseAfter(relay: nat -> Outcome, n: nat): Phase {
    if n == 0 then Ready(0) else AfterAttempt(n - 1, relay(n - 1))
  }

  /** A sender of the concurrent model steps exactly as the SendEvent method loops. */
  lemma {:induction false} SendersRunSendEvent(relay: nat -> Outcome)
    ensures forall k | 0 <= k < Attempts(relay) :: PhaseAfter(relay, k) == Ready(k)
    ensures PhaseAfter(relay, Attempts(relay)) == Done(ResultOf(relay(Attempts(relay) - 1)) == Delivered)
  {
    AttemptsAreRight(relay);
    var last := relay(Attempts(relay) - 1);
    assert Final(last) ==> (Success(last.status) <==> ResultOf(last) == Delivered);
  }

  /** Ids are assumed distinct; a relay answers 2xx only after acting, and may also act and then
      answer anything else; a reply nobody waits for any more is ignored. */
  function Act(net: Net, a: Action): Net {
    match a
    case Begin(id, body) =>
      if Known(net, id) then net else net.(senders := net.senders + [Sender(id, body, Ready(0))])
    case Transmit(i) =>
      if i >= |net.senders| || !net.senders[i].phase.Ready? then net
      else
        var s := net.senders[i];
        var r := Request(i, s.phase.attempt, Post(s.id, s.body));
        WithPhase(net, i, Waiting(s.phase.attempt)).(sent := net.sent + [r], requests := net.requests + {r})
    case Process(r, status, acted) =>
      if r !in net.requests then net
      else
        var id := r.post.eventID;
        net.(requests := net.requests - {r},
             replies := net.replies + {Reply(r.sender, r.attempt, status)},
             effects := if (acted || Success(status)) && id !in net.effects then net.effects + [id] else net.effects)
    case LoseRequest(r) => net.(requests := net.requests - {r})
    case Receive(reply) =>
      if reply !in net.replies then net
      else
        var rest := net.(replies := net.replies - {reply});
        if reply.sender < |net.senders| && net.senders[reply.sender].phase == Waiting(reply.attempt) then
          WithPhase(rest, reply.sender, AfterAttempt(reply.attempt, Answered(reply.status, None)))
        else rest
    case LoseReply(reply) => net.(replies := net.replies - {reply})
    case GiveUp(i) =>
      if i < |net.senders| && net.senders[i].phase.Waiting? then
        WithPhase(net, i, AfterAttempt(net.senders[i].phase.attempt, Failed))
      else net
  }

  function Traffic(actions: seq<Action>): Net {
    if actions == [] then NO_TRAFFIC else Act(Traffic(actions[..|actions| - 1]), actions[|actions| - 1])
  }

  /** How many requests a sender has transmitted. */
  function SentBy(sent: seq<Request>, i: nat): nat {
    if sent == [] then 0 else SentBy(sent[..|sent| - 1], i) + (if sent[|sent| - 1].sender == i then 1 else 0)
  }

  ghost predicate Posted(net: Net, r: Request) {
    r.sender < |net.senders| && r.post == Post(net.senders[r.sender].id, net.senders[r.sender].body)
  }

  /** The attempts made so far agree with the sender's phase. */
  predicate Counted(s: Sender, sent: nat) {
    match s.phase
    case Ready(k) => sent == k < MAX_ATTEMPTS
    case Waiting(k) => sent == k + 1 <= MAX_ATTEMPTS
    case Done(_) => sent <= MAX_ATTEMPTS
  }

  /** Every request carries its sender's one id and body, and no sender makes a fourth attempt. */
  ghost predicate Faithful(net: Net) {
    && (forall r | r in net.requests || r in net.sent :: Posted(net, r))
    && (forall i | 0 <= i < |net.senders| :: Counted(net.senders[i], SentBy(net.sent, i)))
    && (forall i | |net.senders| <= i :: SentBy(net.sent, i) == 0)
  }

  lemma {:induction false} PostedStays(net: Net, a: Action, r: Request)
    requires Posted(net, r)
    ensures Posted(Act(net, a), r)
  {
  }

  lemma {:induction false} CountedStep(net: Net, a: Action, i: nat)
    requires if i < |net.senders| then Counted(net.senders[i], SentBy(net.sent, i)) else SentBy(net.sent, i) == 0
    ensures var net' := Act(net, a);
            if i < |net'.senders| then Counted(net'.senders[i], SentBy(net'.sent, i)) else SentBy(net'.sent, i) == 0
  {
    var net' := Act(net, a);
    if a.Transmit? && net' != net {
      assert net'.sent[..|net.sent|] == net.sent;
    }
  }

  lemma {:induction false} FaithfulStep(net: Net, a: Action)
    requires Faithful(net)
    ensures Faithful(Act(net, a))
  {
    var net' := Act(net, a);
    forall r: Request | r in net'.requests || r in net'.sent
      ensures Posted(net', r)
    {
      PostedComes(net, a, r);
    }
    forall i: nat
      ensures if i < |net'.senders| then Counted(net'.senders[i], SentBy(net'.sent, i)) else SentBy(net'.sent, i) == 0
    {
      CountedStep(net, a, i);
    }
  }

  lemma {:induction false} PostedComes(net: Net, a: Action, r: Request)
    requires r in net.requests || r in net.sent ==> Posted(net, r)
    requires r in Act(net, a).requests || r in Act(net, a).sent
    ensures Posted(Act(net, a), r)
  {
    if r in net.requests || r in net.sent {
      PostedStays(net, a, r);
    }
  }

  /** Each id the relay acted upon is listed once; a 2xx under way, or received, means it did. */
  ghost predicate Effective(net: Net) {
    && (forall i, j | 0 <= i < j < |net.effects| :: net.effects[i] != net.effects[j])
    && (forall i, j | 0 <= i < j < |net.senders| :: net.senders[i].id != net.senders[j].id)
    && (forall r | r in net.replies :: r.sender < |net.senders| && (Success(r.status) ==> net.senders[r.sender].id in net.effects))
    && (forall i | 0 <= i < |net.senders| && net.senders[i].phase == Done(true) :: net.senders[i].id in net.effects)
  }

  lemma {:induction false} EffectiveProcess(net: Net, r: Request, status: int, acted: bool)
    requires Faithful(net) && Effective(net) && r in net.requests
    ensures Effective(Act(net, Process(r, status, acted)))
  {
    var net' := Act(net, Process(r, status, acted));
    assert Posted(net, r);
    assert forall id | id in net.effects :: id in net'.effects;
    if net'.effects != net.effects {
      assert net'.effects[|net.effects|] == r.post.eventID;
    }
  }

  lemma {:induction false} EffectiveStep(net: Net, a: Action)
    requires Faithful(net) && Effective(net)
    ensures Effective(Act(net, a))
  {
    if a.Process? {
      if a.request in net.requests {
        EffectiveProcess(net, a.request, a.status, a.acted);
      }
    } else if a.Receive? && a.reply in net.replies {
      assert a.reply.sender < |net.senders|;
    }
  }

  /** Over any interleaving and any pattern of losses and delays: all attempts of an event carry one
      id and one body, at most three of them; the relay acts upon each id at most once. */
  lemma {:induction false} RetriesAreIdempotent(actions: seq<Action>)
    ensures Faithful(Traffic(actions)) && Effective(Traffic(actions))
  {
    if actions != [] {
      RetriesAreIdempotent(actions[..|actions| - 1]);
      FaithfulStep(Traffic(actions[..|actions| - 1]), actions[|actions| - 1]);
      EffectiveStep(Traffic(actions[..|actions| - 1]), actions[|actions| - 1]);
    }
  }

  // ----- What each sender heard, and what it did then -----

  /** What a sender hears as the action happens: the answer it waits for, or that it gives up on it. */
  function HeardNow(net: Net, a: Action, i: nat): seq<Outcome> {
    if i < |net.senders| && net.senders[i].phase.Waiting? then
      if a.Receive? && a.reply in net.replies && a.reply.sender == i && a.reply.attempt == net.senders[i].phase.attempt then
        [Answered(a.reply.status, None)]
      else if a == GiveUp(i) then [Failed] else []
    else []
  }

  /** The outcomes of a sender's attempts, in order. */
  function HeardBy(actions: seq<Action>, i: nat): seq<Outcome> {
    if actions == [] then []
    else
      var init := actions[..|actions| - 1];
      HeardBy(init, i) + HeardNow(Traffic(init), actions[|actions| - 1], i)
  }

  /** After this outcome another attempt is due, if three were not made yet. */
  predicate GoesOn(o: Outcome) {
    o.Answered? ==> !(200 <= o.status <= 299) && (o.status == 429 || !(400 <= o.status <= 499))
  }

  /** Where a sender must be, given what it heard. */
  ghost predicate Follows(phase: Phase, heard: seq<Outcome>) {
    && |heard| <= 3
    && (forall k | 0 <= k < |heard| - 1 :: GoesOn(heard[k]))
    && match phase
       case Ready(k) => |heard| == k < 3 && (k > 0 ==> GoesOn(heard[k - 1]))
       case Waiting(k) => |heard| == k < 3 && (k > 0 ==> GoesOn(heard[k - 1]))
       case Done(delivered) =>
         && heard != []
         && (GoesOn(heard[|heard| - 1]) ==> |heard| == 3)
         && (delivered <==> heard[|heard| - 1].Answered? && 200 <= heard[|heard| - 1].status <= 299)
  }

  lemma {:induction false} FollowsOutcome(k: nat, heard: seq<Outcome>, o: Outcome)
    requires Follows(Waiting(k), heard)
    ensures Follows(AfterAttempt(k, o), heard + [o])
  {
    forall j | 0 <= j < |heard + [o]| - 1
      ensures GoesOn((heard + [o])[j])
    {
      assert (heard + [o])[j] == heard[j];
    }
  }

  lemma {:induction false} FollowsStep(net: Net, a: Action, i: nat, heard: seq<Outcome>)
    requires if i < |net.senders| then Follows(net.senders[i].phase, heard) else heard == []
    ensures var net', more := Act(net, a), HeardNow(net, a, i);
            if i < |net'.senders| then Follows(net'.senders[i].phase, heard + more) else heard + more == []
  {
    assert heard + [] == heard;
    var more := HeardNow(net, a, i);
    if more != [] {
      FollowsOutcome(net.senders[i].phase.attempt, heard, more[0]);
    }
  }

  /** Over any interleaving, for every sender: another attempt follows one of the first two exactly if
      that one got no answer, or an answer that is neither 2xx nor a client error other than 429; and
      it is done, delivered or not, accordingly. It posted once for each outcome, and once more while it
      waits for one. */
  lemma {:induction false} SendersRetryExactly(actions: seq<Action>, i: nat)
    ensures var net, heard := Traffic(actions), HeardBy(actions, i);
            if i < |net.senders| then Follows(net.senders[i].phase, heard) && Posts(net, i) == |heard|
            else heard == []
  {
    if actions != [] {
      var init, a := actions[..|actions| - 1], actions[|actions| - 1];
      SendersRetryExactly(init, i);
      RetriesAreIdempotent(init);
      FollowsStep(Traffic(init), a, i, HeardBy(init, i));
      PostsStep(Traffic(init), a, i);
    }
  }

  /** The posts of a sender that it does not wait for any more. */
  function Posts(net: Net, i: nat): int
    requires i < |net.senders|
  {
    SentBy(net.sent, i) - (if net.senders[i].phase.Waiting? then 1 else 0)
  }

  lemma {:induction false} PostsStep(net: Net, a: Action, i: nat)
    requires i >= |net.senders| ==> SentBy(net.sent, i) == 0
    ensures var net' := Act(net, a);
            i < |net'.senders| ==>
              Posts(net', i) == (if i >= |net.senders| then 0 else Posts(net, i)) + |HeardNow(net, a, i)|
  {
    var net' := Act(net, a);
    if a.Transmit? && net' != net {
      assert net'.sent[..|net.sent|] == net.sent;
    }
  }

  /** How often the relay acted upon an id. */
  function EffectCount(effects: seq<string>, id: string): nat {
    if effects == [] then 0 else EffectCount(effects[..|effects| - 1], id) + (if effects[|effects| - 1] == id then 1 else 0)
  }

  lemma {:induction false} CountDistinct(effects: seq<string>, id: string)
    requires forall i, j | 0 <= i < j < |effects| :: effects[i] != effects[j]
    ensures EffectCount(effects, id) == if id in effects then 1 else 0
  {
    if effects != [] {
      var init := effects[..|effects| - 1];
      CountDistinct(init, id);
      assert effects == init + [effects[|effects| - 1]];
    }
  }

  /** An event whose SendEvent returned nil took effect exactly once, every other at most once. */
  lemma {:induction false} ExactlyOnceIfDelivered(actions: seq<Action>, i: nat)
    requires i < |Traffic(actions).senders|
    ensures var net := Traffic(actions);
            var s := net.senders[i];
            EffectCount(net.effects, s.id) <= 1 && (s.phase == Done(true) ==> EffectCount(net.effects, s.id) == 1)
  {
    RetriesAreIdempotent(actions);
    CountDistinct(Traffic(actions).effects, Traffic(actions).senders[i].id);
  }

  /** Whoever is done, by a 2xx, by a hard client error or by running out of attempts, stays done and
      transmits nothing more, whatever happens next. */
  lemma {:induction false} NothingAfterDone(actions: seq<Action>, more: seq<Action>, i: nat)
    requires i < |Traffic(actions).senders| && Traffic(actions).senders[i].phase.Done?
    ensures var net, later := Traffic(actions), Traffic(actions + more);
            i < |later.senders| && later.senders[i] == net.senders[i] && SentBy(later.sent, i) == SentBy(net.sent, i)
  {
    if more == [] {
      assert actions + more == actions;
    } else {
      var init, a := more[..|more| - 1], more[|more| - 1];
      NothingAfterDone(actions, init, i);
      assert (actions + more)[..|actions + more| - 1] == actions + init;
      DoneStays(Traffic(actions + init), a, i);
    }
  }

  lemma {:induction false} DoneStays(net: Net, a: Action, i: nat)
    requires i < |net.senders| && net.senders[i].phase.Done?
    ensures i < |Act(net, a).senders| && Act(net, a).senders[i] == net.senders[i]
    ensures SentBy(Act(net, a).sent, i) == SentBy(net.sent, i)
  {
    if a.Transmit? && Act(net, a).sent != net.sent {
      assert Act(net, a).sent[..|net.sent|] == net.sent;
    }
  }

  /** And a 2xx or a non-429 4xx that is received in time makes its sender done. */
  lemma {:induction false} FinalReplySettles(net: Net, reply: Reply)
    requires reply in net.replies && reply.sender < |net.senders| && net.senders[reply.sender].phase == Waiting(reply.attempt)
    ensures Act(net, Receive(reply)).senders[reply.sender].phase.Done? <==>
            Success(reply.status) || HardError(reply.status) || reply.attempt + 1 >= MAX_ATTEMPTS
    ensures Act(net, Receive(reply)).senders[reply.sender].phase == Done(true) <==> Success(reply.status)
  {
  }
}
