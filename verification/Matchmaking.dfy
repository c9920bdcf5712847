/** The in-memory matchmaking queue (HexWar.Matchmaking/Services/MatchmakingQueue.cs): one match
    attempt as a function, the object whose methods compute it, and every interleaving of
    enqueues, cancellations and attempts. */
module Matchmaking {
  import opened HexTypes

  datatype QueuedPlayer = QueuedPlayer(playerId: string, rating: int)

  datatype Match<P> = Match(player1: P, player2: P)

  // ---- One attempt ----

  datatype Attempt<P> = Attempt(queue: seq<P>, found: Option<Match<P>>)

  /** A match attempt while exactly the players in `cancelled` have cancelled. */
  function TryMatch<P(==)>(queue: seq<P>, cancelled: set<P>): Attempt<P>
    decreases |queue|
  {
    if |queue| < 2 then Attempt(queue, None)
    else
      var p1, p2, rest := queue[0], queue[1], queue[2..];
      if p1 in cancelled then TryMatch(if p2 in cancelled then rest else rest + [p2], cancelled)
      else if p2 in cancelled then TryMatch(rest + [p1], cancelled)
      else Attempt(rest, Some(Match(p1, p2)))
  }

  function Count<T(==)>(s: seq<T>, x: T): nat {
    if s == [] then 0 else (if s[0] == x then 1 else 0) + Count(s[1..], x)
  }

  lemma {:induction false} CountAppend<T>(s: seq<T>, t: seq<T>, x: T)
    ensures Count(s + t, x) == Count(s, x) + Count(t, x)
  {
    if s == [] {
      assert s + t == t;
    } else {
      assert (s + t)[1..] == s[1..] + t;
      CountAppend(s[1..], t, x);
    }
  }

  lemma CountOne<T>(y: T, x: T)
    ensures Count([y], x) == if y == x then 1 else 0
  {
    assert [y][1..] == [];
  }

  lemma CountFirstTwo<T>(s: seq<T>, x: T)
    requires |s| >= 2
    ensures Count(s, x) == (if s[0] == x then 1 else 0) + (if s[1] == x then 1 else 0) + Count(s[2..], x)
  {
    assert s[1..][1..] == s[2..];
  }

  /** The players who have not cancelled, in the order they wait in. */
  function LiveOf<P(==)>(queue: seq<P>, cancelled: set<P>): seq<P> {
    if queue == [] then []
    else if queue[0] in cancelled then LiveOf(queue[1..], cancelled)
    else [queue[0]] + LiveOf(queue[1..], cancelled)
  }

  lemma {:induction false} LiveJoin<P>(s: seq<P>, t: seq<P>, cancelled: set<P>)
    ensures LiveOf(s + t, cancelled) == LiveOf(s, cancelled) + LiveOf(t, cancelled)
  {
    if s == [] {
      assert s + t == t;
    } else {
      assert (s + t)[1..] == s[1..] + t;
      LiveJoin(s[1..], t, cancelled);
    }
  }

  lemma LiveOfTwo<P>(x: P, y: P, cancelled: set<P>)
    ensures LiveOf([x, y], cancelled) == (if x in cancelled then [] else [x]) + (if y in cancelled then [] else [y])
  {
    assert [x, y][1..] == [y] && [y][1..] == [];
    assert LiveOf([y], cancelled) == (if y in cancelled then [] else [y]) + LiveOf([], cancelled);
  }

  /** What an attempt goes on with after a dequeued pair that cannot be matched. */
  function Retried(queue: seq<QueuedPlayer>, cancelled: set<QueuedPlayer>): seq<QueuedPlayer>
    requires |queue| >= 2
  {
    if queue[0] !in cancelled then queue[2..] + [queue[0]]
    else if queue[1] !in cancelled then queue[2..] + [queue[1]]
    else queue[2..]
  }

  lemma RetriedLive(queue: seq<QueuedPlayer>, cancelled: set<QueuedPlayer>)
    requires |queue| >= 2 && (queue[0] in cancelled || queue[1] in cancelled)
    ensures |LiveOf(Retried(queue, cancelled), cancelled)| == |LiveOf(queue, cancelled)|
  {
    assert queue == queue[..2] + queue[2..] && queue[..2] == [queue[0], queue[1]];
    LiveJoin(queue[..2], queue[2..], cancelled);
    LiveOfTwo(queue[0], queue[1], cancelled);
    LiveJoin(queue[2..], [queue[0]], cancelled);
    LiveJoin(queue[2..], [queue[1]], cancelled);
    LiveOfTwo(queue[0], queue[0], cancelled);
    LiveOfTwo(queue[1], queue[1], cancelled);
  }

  lemma RetriedCount(queue: seq<QueuedPlayer>, cancelled: set<QueuedPlayer>, p: QueuedPlayer)
    requires |queue| >= 2 && (queue[0] in cancelled || queue[1] in cancelled) && p !in cancelled
    ensures Count(Retried(queue, cancelled), p) == Count(queue, p)
  {
    CountFirstTwo(queue, p);
    CountAppend(queue[2..], [queue[0]], p);
    CountAppend(queue[2..], [queue[1]], p);
    CountOne(queue[0], p);
    CountOne(queue[1], p);
  }

  /** An attempt finds a match exactly when two live players wait, matches two live players, and
      leaves at most one player behind when it finds none. */
  lemma {:induction false} MatchIffTwoLive(queue: seq<QueuedPlayer>, cancelled: set<QueuedPlayer>)
    ensures var after := TryMatch(queue, cancelled);
            && (after.found.Some? <==> |LiveOf(queue, cancelled)| >= 2)
            && (after.found.Some? ==> after.found.value.player1 !in cancelled && after.found.value.player2 !in cancelled)
            && (after.found.Some? ==> |after.queue| + 2 <= |queue|)
            && (after.found.None? ==> |after.queue| <= 1)
    decreases |queue|
  {
    if |queue| == 1 {
      assert queue[1..] == [];
    } else if |queue| >= 2 {
      if queue[0] in cancelled || queue[1] in cancelled {
        RetriedLive(queue, cancelled);
        MatchIffTwoLive(Retried(queue, cancelled), cancelled);
      } else {
        assert queue[1..][1..] == queue[2..];
      }
    }
  }

  function InMatch(found: Option<Match<QueuedPlayer>>, p: QueuedPlayer): nat {
    if found.None? then 0
    else (if found.value.player1 == p then 1 else 0) + (if found.value.player2 == p then 1 else 0)
  }

  /** No live player is lost: each is still waiting or in the match, as often as it was waiting. */
  lemma {:induction false} LivePlayersKept(queue: seq<QueuedPlayer>, cancelled: set<QueuedPlayer>, p: QueuedPlayer)
    requires p !in cancelled
    ensures var after := TryMatch(queue, cancelled);
            Count(queue, p) == Count(after.queue, p) + InMatch(after.found, p)
    decreases |queue|
  {
    if |queue| >= 2 {
      if queue[0] in cancelled || queue[1] in cancelled {
        RetriedCount(queue, cancelled, p);
        LivePlayersKept(Retried(queue, cancelled), cancelled, p);
      } else {
        CountFirstTwo(queue, p);
      }
    }
  }

  // ---- Who is matched ----

  /** The first place counted in twos where both players are live. */
  function FirstPair<P(==)>(queue: seq<P>, cancelled: set<P>): (i: Option<nat>)
    ensures i.Some? ==> i.value % 2 == 0 && i.value + 1 < |queue| && queue[i.value] !in cancelled && queue[i.value + 1] !in cancelled
    ensures i.Some? ==> forall k :: 0 <= k < i.value && k % 2 == 0 ==> queue[k] in cancelled || queue[k + 1] in cancelled
    ensures i.None? ==> forall k :: 0 <= k < |queue| - 1 && k % 2 == 0 ==> queue[k] in cancelled || queue[k + 1] in cancelled
    decreases |queue|
  {
    if |queue| < 2 then None
    else if queue[0] !in cancelled && queue[1] !in cancelled then Some(0)
    else
      var rest := FirstPair(queue[2..], cancelled);
      if rest.Some? then Some(rest.value + 2) else None
  }

  lemma {:induction false} LiveOfLive<P>(queue: seq<P>, cancelled: set<P>)
    ensures forall p :: p in LiveOf(queue, cancelled) <==> p in queue && p !in cancelled
  {
    if queue != [] {
      LiveOfLive(queue[1..], cancelled);
      assert forall p :: p in queue <==> p == queue[0] || p in queue[1..];
    }
  }

  /** An even stretch at the head in which no two players dequeued together are both live goes
      through: what is live of it ends up, in order, behind everybody else. */
  lemma {:induction false} HeadGoesRound<P>(head: seq<P>, rest: seq<P>, cancelled: set<P>)
    requires |head| % 2 == 0
    requires forall k :: 0 <= k < |head| && k % 2 == 0 ==> head[k] in cancelled || head[k + 1] in cancelled
    ensures TryMatch(head + rest, cancelled) == TryMatch(rest + LiveOf(head, cancelled), cancelled)
    decreases |head|
  {
    if head == [] {
      assert [] + rest == rest + [] == rest;
    } else {
      var p1, p2, tail := head[0], head[1], head[2..];
      var back := LiveOf([p1, p2], cancelled);
      LiveOfTwo(p1, p2, cancelled);
      assert head == [p1, p2] + tail && (head + rest)[2..] == tail + rest;
      LiveJoin([p1, p2], tail, cancelled);
      assert (head + rest)[0] == p1 && (head + rest)[1] == p2 && (tail + rest) + [] == tail + rest;
      assert head[0] in cancelled || head[0 + 1] in cancelled;
      assert back == if p1 !in cancelled then [p1] else if p2 !in cancelled then [p2] else [];
      assert TryMatch(head + rest, cancelled) == TryMatch((tail + rest) + back, cancelled);
      assert (tail + rest) + back == tail + (rest + back);
      HeadGoesRound(tail, rest + back, cancelled);
      assert (rest + back) + LiveOf(tail, cancelled) == rest + LiveOf(head, cancelled);
    }
  }

  /** Everybody is live: the first two. */
  function Front<P>(live: seq<P>): Attempt<P> {
    if |live| < 2 then Attempt(live, None) else Attempt(live[2..], Some(Match(live[0], live[1])))
  }

  /** Who is matched and who is left, by position: the first pair that is dequeued together; without
      one, the first two live players of an even queue; of an odd one the last player, once round,
      comes first, or, having cancelled, takes the first live player out of the running. */
  function Outcome<P(==)>(queue: seq<P>, cancelled: set<P>): Attempt<P> {
    var i := FirstPair(queue, cancelled);
    var live := LiveOf(queue, cancelled);
    if i.Some? then
      Attempt(queue[i.value + 2..] + LiveOf(queue[..i.value], cancelled), Some(Match(queue[i.value], queue[i.value + 1])))
    else if |queue| % 2 == 0 then Front(live)
    else
      var last := queue[|queue| - 1];
      if last !in cancelled then Front([last] + LiveOf(queue[..|queue| - 1], cancelled))
      else if live == [] then Attempt([last], None)
      else Front(live[1..] + [live[0]])
  }

  lemma AllLive<P>(live: seq<P>, cancelled: set<P>)
    requires forall p :: p in live ==> p !in cancelled
    ensures TryMatch(live, cancelled) == Front(live)
  {
  }

  /** Which two players an attempt matches, and what it leaves, for every queue and every set of
      cancellations. */
  lemma MatchedByPosition<P>(queue: seq<P>, cancelled: set<P>)
    ensures TryMatch(queue, cancelled) == Outcome(queue, cancelled)
  {
    hide TryMatch, LiveOf, FirstPair, Front;
    var i := FirstPair(queue, cancelled);
    if i.Some? {
      PairedQueue(queue, cancelled, i.value);
    } else if |queue| % 2 == 0 {
      assert queue + [] == queue && [] + LiveOf(queue, cancelled) == LiveOf(queue, cancelled);
      HeadGoesRound(queue, [], cancelled);
      LiveOfLive(queue, cancelled);
      AllLive(LiveOf(queue, cancelled), cancelled);
    } else {
      OddQueue(queue, cancelled);
    }
  }

  lemma PairedQueue<P>(queue: seq<P>, cancelled: set<P>, i: nat)
    requires i % 2 == 0 && i + 1 < |queue| && queue[i] !in cancelled && queue[i + 1] !in cancelled
    requires forall k :: 0 <= k < i && k % 2 == 0 ==> queue[k] in cancelled || queue[k + 1] in cancelled
    ensures TryMatch(queue, cancelled) ==
              Attempt(queue[i + 2..] + LiveOf(queue[..i], cancelled), Some(Match(queue[i], queue[i + 1])))
  {
    var head, rest := queue[..i], queue[i..];
    assert queue == head + rest;
    HeadGoesRound(head, rest, cancelled);
    assert (rest + LiveOf(head, cancelled))[2..] == queue[i + 2..] + LiveOf(head, cancelled);
  }

  lemma OddQueue<P>(queue: seq<P>, cancelled: set<P>)
    requires |queue| % 2 == 1 && FirstPair(queue, cancelled).None?
    ensures TryMatch(queue, cancelled) == Outcome(queue, cancelled)
  {
    var head, last := queue[..|queue| - 1], queue[|queue| - 1];
    var before, live := LiveOf(head, cancelled), LiveOf(queue, cancelled);
    assert queue == head + [last];
    HeadGoesRound(head, [last], cancelled);
    LiveOfLive(head, cancelled);
    LiveJoin(head, [last], cancelled);
    assert [last][1..] == [];
    if last !in cancelled {
      AllLive([last] + before, cancelled);
    } else {
      assert LiveOf([last], cancelled) == [] && live == before;
      if live != [] {
        var turned := live[1..] + [live[0]];
        assert ([last] + before)[2..] == live[1..];
        AllLive(turned, cancelled);
      }
    }
  }

  predicate Distinct<P(==)>(queue: seq<P>) {
    forall i, j :: 0 <= i < j < |queue| ==> queue[i] != queue[j]
  }

  /** First come, first served holds exactly so far: the two live players who have waited longest are
      matched if nobody else is live, or if they are dequeued together, or if the queue is even and
      holds no pair to be dequeued together; in every other queue somebody overtakes one of them. */
  lemma FirstTwoMatchedIff(queue: seq<QueuedPlayer>, cancelled: set<QueuedPlayer>)
    requires Distinct(queue) && |LiveOf(queue, cancelled)| >= 2
    ensures var live, i := LiveOf(queue, cancelled), FirstPair(queue, cancelled);
            var found := TryMatch(queue, cancelled).found;
            && found.Some?
            && ({found.value.player1, found.value.player2} == {live[0], live[1]} <==>
                  || |live| == 2
                  || (i.Some? && LiveOf(queue[..i.value], cancelled) == [])
                  || (i.None? && |queue| % 2 == 0))
  {
    MatchedByPosition(queue, cancelled);
    var live, i := LiveOf(queue, cancelled), FirstPair(queue, cancelled);
    LiveDistinct(queue, cancelled);
    if i.Some? {
      PairInOrder(queue, cancelled, i.value);
    } else if |queue| % 2 == 1 && queue[|queue| - 1] !in cancelled {
      LiveLast(queue, cancelled);
      LiveOfLive(queue[..|queue| - 1], cancelled);
    }
  }

  lemma {:induction false} LiveDistinct<P>(queue: seq<P>, cancelled: set<P>)
    requires Distinct(queue)
    ensures Distinct(LiveOf(queue, cancelled))
  {
    if queue != [] {
      LiveDistinct(queue[1..], cancelled);
      LiveOfLive(queue[1..], cancelled);
      var rest := LiveOf(queue[1..], cancelled);
      forall k | 0 <= k < |rest| ensures rest[k] != queue[0] {
        assert rest[k] in rest;
      }
    }
  }

  /** A pair dequeued together stands next to each other among the live players. */
  lemma PairInOrder<P>(queue: seq<P>, cancelled: set<P>, i: nat)
    requires i + 1 < |queue| && queue[i] !in cancelled && queue[i + 1] !in cancelled
    ensures var before := LiveOf(queue[..i], cancelled);
            var live := LiveOf(queue, cancelled);
            |live| >= |before| + 2 && live[|before|] == queue[i] && live[|before| + 1] == queue[i + 1]
  {
    var before := LiveOf(queue[..i], cancelled);
    assert queue == queue[..i] + ([queue[i], queue[i + 1]] + queue[i + 2..]);
    LiveJoin(queue[..i], [queue[i], queue[i + 1]] + queue[i + 2..], cancelled);
    LiveJoin([queue[i], queue[i + 1]], queue[i + 2..], cancelled);
    LiveOfTwo(queue[i], queue[i + 1], cancelled);
  }

  lemma LiveLast<P>(queue: seq<P>, cancelled: set<P>)
    requires queue != [] && queue[|queue| - 1] !in cancelled
    ensures LiveOf(queue, cancelled) == LiveOf(queue[..|queue| - 1], cancelled) + [queue[|queue| - 1]]
  {
    var head, last := queue[..|queue| - 1], queue[|queue| - 1];
    assert queue == head + [last] && [last][1..] == [];
    LiveJoin(head, [last], cancelled);
    assert LiveOf([last], cancelled) == [last] + LiveOf([], cancelled);
  }

  /** For instance, a player dequeued together with a cancelled one goes to the back, behind players
      who came later. */
  lemma LaterPlayersOvertake(gone: QueuedPlayer, a: QueuedPlayer, b: QueuedPlayer, c: QueuedPlayer)
    requires gone != a && gone != b && gone != c
    ensures TryMatch([gone, a, b, c], {gone}) == Attempt([a], Some(Match(b, c)))
  {
    assert [gone, a, b, c][2..] + [a] == [b, c, a] && [b, c, a][2..] == [a];
    assert TryMatch([b, c, a], {gone}) == Attempt([a], Some(Match(b, c)));
  }

  // ---- The object ----

  class MatchmakingQueue {
    var inMemoryQueue: seq<QueuedPlayer>

    constructor ()
      ensures inMemoryQueue == []
    {
      inMemoryQueue := [];
    }

    method Enqueue(player: QueuedPlayer, cancelled: set<QueuedPlayer>) returns (found: Option<Match<QueuedPlayer>>)
      modifies this
      ensures Attempt(inMemoryQueue, found) == TryMatch(old(inMemoryQueue) + [player], cancelled)
    {
      inMemoryQueue := inMemoryQueue + [player];
      found := TryMatchInMemory(cancelled);
    }

    method Dequeue() returns (player: QueuedPlayer)
      requires inMemoryQueue != []
      modifies this
      ensures player == old(inMemoryQueue)[0] && inMemoryQueue == old(inMemoryQueue)[1..]
    {
      player := inMemoryQueue[0];
      inMemoryQueue := inMemoryQueue[1..];
    }

    method TryMatchInMemory(cancelled: set<QueuedPlayer>) returns (found: Option<Match<QueuedPlayer>>)
      modifies this
      ensures Attempt(inMemoryQueue, found) == TryMatch(old(inMemoryQueue), cancelled)
      decreases |inMemoryQueue|
    {
      if |inMemoryQueue| < 2 {
        return None;
      }
      var player1 := Dequeue();
      var player2 := Dequeue();
      assert inMemoryQueue == old(inMemoryQueue)[2..];
      if player1 in cancelled {
        if player2 !in cancelled {
          inMemoryQueue := inMemoryQueue + [player2];
        }
        found := TryMatchInMemory(cancelled);
        return;
      }
      if player2 in cancelled {
        inMemoryQueue := inMemoryQueue + [player1];
        found := TryMatchInMemory(cancelled);
        return;
      }
      found := Some(Match(player1, player2));
    }
  }

  // ---- Every interleaving ----

  /** Where the thread that holds the match lock is. */
  datatype Stage =
    | Free
    | Counting
    | First
    | Second(p1: nat)
    | Paired(p1: nat, p2: nat)
    | FirstDead(p2: nat)
    | FirstLive(p1: nat, p2: nat)
    | Requeue(p: nat)

  /** Players are numbered in the order they enqueued; `waiting` threads have enqueued and not
      begun their attempt. */
  datatype Hall = Hall(
    queue: seq<nat>,
    arrived: nat,
    cancelled: set<nat>,
    waiting: nat,
    stage: Stage,
    matched: seq<(nat, nat)>,
    dropped: seq<nat>)

  datatype Move = Enqueue | Cancel(player: nat) | Begin | Advance

  function Moved(h: Hall, m: Move): Hall {
    match m
    case Enqueue => h.(queue := h.queue + [h.arrived], arrived := h.arrived + 1, waiting := h.waiting + 1)
    case Cancel(player) => h.(cancelled := h.cancelled + {player})
    case Begin => if h.stage == Free && h.waiting > 0 then h.(stage := Counting, waiting := h.waiting - 1) else h
    case Advance => Advanced(h)
  }

  /** One atomic operation of the attempt under way. */
  function Advanced(h: Hall): Hall {
    match h.stage
    case Free => h
    case Counting => h.(stage := if |h.queue| < 2 then Free else First)
    case First => if h.queue == [] then h.(stage := Free) else h.(queue := h.queue[1..], stage := Second(h.queue[0]))
    case Second(p1) =>
      if h.queue == [] then h.(stage := Free) else h.(queue := h.queue[1..], stage := Paired(p1, h.queue[0]))
    case Paired(p1, p2) =>
      if p1 in h.cancelled then h.(stage := FirstDead(p2), dropped := h.dropped + [p1])
      else h.(stage := FirstLive(p1, p2))
    case FirstDead(p2) =>
      if p2 in h.cancelled then h.(stage := Counting, dropped := h.dropped + [p2]) else h.(stage := Requeue(p2))
    case FirstLive(p1, p2) =>
      if p2 in h.cancelled then h.(stage := Requeue(p1), dropped := h.dropped + [p2])
      else h.(stage := Free, matched := h.matched + [(p1, p2)])
    case Requeue(p) => h.(queue := h.queue + [p], stage := Counting)
  }

  function RunMoves(h: Hall, ms: seq<Move>): Hall
    decreases |ms|
  {
    if ms == [] then h else RunMoves(Moved(h, ms[0]), ms[1..])
  }

  function Empty(): Hall {
    Hall([], 0, {}, 0, Free, [], [])
  }

  function Hand(s: Stage): seq<nat> {
    match s
    case Second(p1) => [p1]
    case Paired(p1, p2) => [p1, p2]
    case FirstDead(p2) => [p2]
    case FirstLive(p1, p2) => [p1, p2]
    case Requeue(p) => [p]
    case _ => []
  }

  function InMatches(matched: seq<(nat, nat)>, p: nat): nat {
    if matched == [] then 0
    else (if matched[0].0 == p then 1 else 0) + (if matched[0].1 == p then 1 else 0) + InMatches(matched[1..], p)
  }

  /** How often a player is anywhere. */
  function Times(h: Hall, p: nat): nat {
    Count(h.queue, p) + Count(Hand(h.stage), p) + InMatches(h.matched, p) + Count(h.dropped, p)
  }

  /** Enqueues whose attempt is not over. */
  function Due(h: Hall): nat {
    h.waiting + if h.stage == Free then 0 else 1
  }

  ghost predicate OnceEach(h: Hall) {
    forall p: nat :: Times(h, p) == if p < h.arrived then 1 else 0
  }

  predicate LengthOk(h: Hall) {
    && |h.queue| + |Hand(h.stage)| <= 1 + Due(h)
    && (h.stage == First ==> |h.queue| >= 2)
    && (h.stage.Second? ==> |h.queue| >= 1)
  }

  predicate DroppedCancelled(h: Hall) {
    forall p :: p in h.dropped ==> p in h.cancelled
  }

  ghost predicate HallOk(h: Hall) {
    OnceEach(h) && LengthOk(h) && DroppedCancelled(h)
  }

  lemma {:induction false} InMatchesAppend(matched: seq<(nat, nat)>, m: (nat, nat), p: nat)
    ensures InMatches(matched + [m], p) == InMatches(matched, p) + (if m.0 == p then 1 else 0) + (if m.1 == p then 1 else 0)
  {
    if matched == [] {
      assert [] + [m] == [m] && [m][1..] == [];
    } else {
      assert (matched + [m])[1..] == matched[1..] + [m];
      InMatchesAppend(matched[1..], m, p);
    }
  }

  lemma CountSnoc(s: seq<nat>, y: nat, p: nat)
    ensures Count(s + [y], p) == Count(s, p) + if y == p then 1 else 0
  {
    CountAppend(s, [y], p);
    CountOne(y, p);
  }

  lemma CountPair(x: nat, y: nat, p: nat)
    ensures Count([x, y], p) == (if x == p then 1 else 0) + (if y == p then 1 else 0)
    ensures Count([x], p) == if x == p then 1 else 0
  {
    CountOne(x, p);
    CountOne(y, p);
    assert [x] + [y] == [x, y];
    CountAppend([x], [y], p);
  }

  /** An attempt's own operations move players about and neither add nor lose one. */
  lemma AdvanceKeepsTimes(h: Hall, p: nat)
    requires LengthOk(h)
    ensures Times(Advanced(h), p) == Times(h, p)
  {
    match h.stage
    case Free =>
    case Counting =>
    case First =>
      CountPair(h.queue[0], 0, p);
    case Second(p1) =>
      CountPair(p1, h.queue[0], p);
    case Paired(p1, p2) =>
      CountPair(p1, p2, p);
      CountPair(p2, p2, p);
      CountSnoc(h.dropped, p1, p);
    case FirstDead(p2) =>
      CountPair(p2, p2, p);
      CountSnoc(h.dropped, p2, p);
    case FirstLive(p1, p2) =>
      CountPair(p1, p2, p);
      CountPair(p1, p1, p);
      CountSnoc(h.dropped, p2, p);
      InMatchesAppend(h.matched, (p1, p2), p);
    case Requeue(q) =>
      CountPair(q, q, p);
      CountSnoc(h.queue, q, p);
  }

  lemma OnceEachStays(h: Hall, m: Move)
    requires HallOk(h)
    ensures OnceEach(Moved(h, m))
  {
    hide LengthOk, Advanced;
    forall p: nat ensures Times(Moved(h, m), p) == if p < Moved(h, m).arrived then 1 else 0 {
      assert Times(h, p) == if p < h.arrived then 1 else 0;
      if m == Move.Advance {
        AdvanceKeepsTimes(h, p);
        AdvanceKeepsArrived(h);
      } else if m == Enqueue {
        CountSnoc(h.queue, h.arrived, p);
      } else {
        assert Count(Hand(Free), p) == 0 == Count(Hand(Counting), p);
      }
    }
  }

  lemma AdvanceKeepsArrived(h: Hall)
    ensures Advanced(h).arrived == h.arrived && Advanced(h).cancelled == h.cancelled && Advanced(h).waiting == h.waiting
  {
  }

  lemma LengthStays(h: Hall, m: Move)
    requires LengthOk(h)
    ensures LengthOk(Moved(h, m))
  {
  }

  lemma DroppedStays(h: Hall, m: Move)
    requires DroppedCancelled(h)
    ensures DroppedCancelled(Moved(h, m))
  {
  }

  lemma MovedOk(h: Hall, m: Move)
    requires HallOk(h)
    ensures HallOk(Moved(h, m))
  {
    OnceEachStays(h, m);
    LengthStays(h, m);
    DroppedStays(h, m);
  }

  lemma {:induction false} RunMovesOk(h: Hall, ms: seq<Move>)
    requires HallOk(h)
    ensures HallOk(RunMoves(h, ms))
    decreases |ms|
  {
    hide HallOk, Moved;
    if ms != [] {
      MovedOk(h, ms[0]);
      RunMovesOk(Moved(h, ms[0]), ms[1..]);
    }
  }

  lemma {:induction false} NotThere(s: seq<nat>, p: nat)
    ensures Count(s, p) == 0 <==> p !in s
  {
    if s != [] {
      NotThere(s[1..], p);
    }
  }

  /** However enqueues, cancellations and match attempts interleave: a player who has not cancelled
      is waiting, in the hands of the attempt under way, or in exactly one match, and only one of
      these; nobody is in two matches; and at most one player more than there are attempts due is
      waiting, so at most one when none is. */
  lemma NobodyLostOrMatchedTwice(ms: seq<Move>, p: nat)
    ensures var h := RunMoves(Empty(), ms);
            && (p < h.arrived && p !in h.cancelled ==>
                  Count(h.queue, p) + Count(Hand(h.stage), p) + InMatches(h.matched, p) == 1)
            && InMatches(h.matched, p) <= 1
            && |h.queue| <= 1 + Due(h)
  {
    hide RunMoves;
    RunMovesOk(Empty(), ms);
    var h := RunMoves(Empty(), ms);
    assert Times(h, p) <= 1;
    NotThere(h.dropped, p);
  }

  /** Operations an attempt can still take without anybody else moving. */
  function OperationsLeft(h: Hall): nat {
    8 * (|h.queue| + |Hand(h.stage)|) + Rank(h.stage)
  }

  function Rank(s: Stage): nat {
    match s
    case Free => 0
    case Counting => 5
    case First => 4
    case Second(_) => 3
    case Paired(_, _) => 2
    case FirstDead(_) => 7
    case FirstLive(_, _) => 1
    case Requeue(_) => 6
  }

  /** The recursion ends: each operation uses up some of what is left, which only an enqueue can
      renew. */
  lemma AttemptTerminates(h: Hall, player: nat)
    requires LengthOk(h)
    ensures h.stage != Free ==> OperationsLeft(Moved(h, Move.Advance)) < OperationsLeft(h)
    ensures OperationsLeft(Moved(h, Cancel(player))) == OperationsLeft(h)
  {
  }

  /** The attempt under way run to its end with nobody else moving. */
  function Finish(h: Hall): Hall
    requires LengthOk(h)
    decreases OperationsLeft(h)
  {
    if h.stage == Free then h
    else
      AttemptTerminates(h, 0);
      LengthStays(h, Move.Advance);
      Finish(Advanced(h))
  }

  function Pairs(found: Option<Match<nat>>): seq<(nat, nat)> {
    if found.None? then [] else [(found.value.player1, found.value.player2)]
  }

  lemma FinishStep(h: Hall)
    requires LengthOk(h) && h.stage != Free
    ensures LengthOk(Advanced(h)) && Finish(h) == Finish(Advanced(h))
  {
    LengthStays(h, Move.Advance);
  }

  /** Counting and dequeuing two players. */
  lemma TakesTwo(h: Hall)
    requires LengthOk(h) && h.stage == Counting && |h.queue| >= 2
    ensures var paired := h.(stage := Paired(h.queue[0], h.queue[1]), queue := h.queue[2..]);
            LengthOk(paired) && Finish(h) == Finish(paired)
  {
    hide Finish, LengthOk;
    assert h.queue[1..][1..] == h.queue[2..] && h.queue[1..][0] == h.queue[1];
    FinishStep(h);
    FinishStep(Advanced(h));
    FinishStep(Advanced(Advanced(h)));
  }

  /** An attempt nobody interrupts does exactly what the function says of it. */
  lemma {:induction false} UninterruptedAttempt(h: Hall)
    requires LengthOk(h) && h.stage == Counting
    ensures Finish(h).queue == TryMatch(h.queue, h.cancelled).queue
    ensures Finish(h).matched == h.matched + Pairs(TryMatch(h.queue, h.cancelled).found)
    decreases |h.queue|
  {
    hide Finish, LengthOk;
    if |h.queue| < 2 {
      FinishStep(h);
      Finished(Advanced(h));
      assert h.matched + [] == h.matched;
    } else {
      var p1, p2 := h.queue[0], h.queue[1];
      TakesTwo(h);
      var h3 := h.(stage := Paired(p1, p2), queue := h.queue[2..]);
      FinishStep(h3);
      var h4 := Advanced(h3);
      FinishStep(h4);
      var h5 := Advanced(h4);
      if h5.stage == Free {
        Finished(h5);
      } else if h5.stage == Counting {
        UninterruptedAttempt(h5);
      } else {
        FinishStep(h5);
        UninterruptedAttempt(Advanced(h5));
      }
    }
  }

  lemma Finished(h: Hall)
    requires LengthOk(h) && h.stage == Free
    ensures Finish(h) == h
  {
  }
}
