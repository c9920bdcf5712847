/** The lease-based lock under which servers load, change and save a room
    (HexWar.Infrastructure/Messaging/RedisDistributedLock.cs and ExecuteOnGameRoomAsync in
    HexWar.Application/Sessions/GameSession.cs). */
module LockProtocol {
  import opened HexTypes

  /** The key as the lock server holds it: who took it, until when. */
  datatype Lease = Lease(token: nat, until: int)

  /** How far one caller has got inside its lock, load, act, save, release section; `version` counts
      the saves that came before its load. */
  datatype Section<S, A> =
    | Idle
    | Holding(token: nat)
    | Loaded(token: nat, seen: S, version: nat)
    | Acted(token: nat, action: A, next: S, version: nat)
    | Finished(token: nat)

  datatype Entry<A> = Entry(token: nat, action: A)

  /** `tokens` counts the unique lock ids handed out, `saved` lists what was saved, in order. */
  datatype System<S, A> = System(
    now: int,
    key: Option<Lease>,
    tokens: nat,
    sections: map<nat, Section<S, A>>,
    store: S,
    saved: seq<Entry<A>>)

  datatype Event<A> =
    | TryAcquire(who: nat, expiry: nat)
    | Load(who: nat)
    | Act(who: nat, action: A)
    | Save(who: nat)
    | Fail(who: nat)
    | Release(who: nat)
    | Crash(who: nat)
    | Pass(duration: nat)

  function At<S, A>(sys: System<S, A>, who: nat): Section<S, A> {
    if who in sys.sections then sys.sections[who] else Idle
  }

  function Put<S, A>(sys: System<S, A>, who: nat, s: Section<S, A>): System<S, A> {
    sys.(sections := sys.sections[who := s])
  }

  /** The unlock script: delete the key if it still holds the caller's id. */
  function Unlocked(key: Option<Lease>, token: nat): Option<Lease> {
    if key.Some? && key.value.token == token then None else key
  }

  function Expired(key: Option<Lease>, now: int): Option<Lease> {
    if key.Some? && key.value.until <= now then None else key
  }

  function Happen<S, A>(sys: System<S, A>, e: Event<A>, act: (S, A) -> S): System<S, A> {
    match e
    case TryAcquire(who, expiry) =>
      if At(sys, who) != Idle || sys.key.Some? then sys
      else Put(sys, who, Holding(sys.tokens))
             .(key := Some(Lease(sys.tokens, sys.now + expiry)), tokens := sys.tokens + 1)
    case Load(who) =>
      (match At(sys, who)
       case Holding(token) => Put(sys, who, Loaded(token, sys.store, |sys.saved|))
       case _ => sys)
    case Act(who, action) =>
      (match At(sys, who)
       case Loaded(token, seen, version) => Put(sys, who, Acted(token, action, act(seen, action), version))
       case _ => sys)
    case Save(who) =>
      (match At(sys, who)
       case Acted(token, action, next, _) =>
         Put(sys, who, Finished(token)).(store := next, saved := sys.saved + [Entry(token, action)])
       case _ => sys)
    case Fail(who) =>
      if At(sys, who) == Idle then sys else Put(sys, who, Finished(At(sys, who).token))
    case Release(who) =>
      if !At(sys, who).Finished? then sys
      else Put(sys, who, Idle).(key := Unlocked(sys.key, At(sys, who).token))
    case Crash(who) => Put(sys, who, Idle)
    case Pass(duration) => sys.(now := sys.now + duration, key := Expired(sys.key, sys.now + duration))
  }

  function RunAll<S, A>(sys: System<S, A>, es: seq<Event<A>>, act: (S, A) -> S): System<S, A>
    decreases |es|
  {
    if es == [] then sys else RunAll(Happen(sys, es[0], act), es[1..], act)
  }

  function Opened<S, A>(store: S): System<S, A> {
    System(0, None, 0, map[], store, [])
  }

  function Fold<S, A>(store: S, saved: seq<Entry<A>>, act: (S, A) -> S): S
    decreases |saved|
  {
    if saved == [] then store else act(Fold(store, saved[..|saved| - 1], act), saved[|saved| - 1].action)
  }

  /** A save made while the key still holds the saver's id. */
  predicate InLease<S, A>(sys: System<S, A>, e: Event<A>) {
    e.Save? && At(sys, e.who).Acted? ==> sys.key.Some? && sys.key.value.token == At(sys, e.who).token
  }

  predicate AllInLease<S, A>(sys: System<S, A>, es: seq<Event<A>>, act: (S, A) -> S)
    decreases |es|
  {
    es == [] || (InLease(sys, es[0]) && AllInLease(Happen(sys, es[0], act), es[1..], act))
  }

  // ---- Who may delete the key ----

  /** Whatever happens, a held key goes only when its own holder releases it or when its time is
      up: a late release never deletes another caller's lock. */
  lemma OnlyOwnerOrExpiry<S, A>(sys: System<S, A>, e: Event<A>, act: (S, A) -> S)
    requires sys.key.Some? && Happen(sys, e, act).key != sys.key
    ensures Happen(sys, e, act).key == None
    ensures (e.Release? && At(sys, e.who) == Finished(sys.key.value.token)) ||
            (e.Pass? && sys.key.value.until <= sys.now + e.duration)
  {
  }

  /** A lock taken is held for its lease, and not a moment longer. */
  lemma LeaseLasts<S, A>(sys: System<S, A>, who: nat, expiry: nat, duration: nat, act: (S, A) -> S)
    requires sys.key == None && At(sys, who) == Idle
    ensures var taken := Happen(sys, TryAcquire(who, expiry), act);
            var later := Happen(taken, Pass(duration), act);
            && taken.key.Some? && At(taken, who) == Holding(taken.key.value.token)
            && later.now == sys.now + duration && (later.key == taken.key <==> duration < expiry)
            && (later.key == None <==> duration >= expiry)
  {
  }

  // ---- What a lost update is ----

  /** A save before which nobody else has saved since its section loaded. */
  predicate CleanSave<S, A>(sys: System<S, A>, e: Event<A>) {
    e.Save? && At(sys, e.who).Acted? ==> At(sys, e.who).version == |sys.saved|
  }

  predicate AllClean<S, A>(sys: System<S, A>, es: seq<Event<A>>, act: (S, A) -> S)
    decreases |es|
  {
    es == [] || (CleanSave(sys, es[0]) && AllClean(Happen(sys, es[0], act), es[1..], act))
  }

  /** A section nobody has overtaken knows the current store. */
  ghost predicate Current<S, A>(sys: System<S, A>, act: (S, A) -> S) {
    forall who ::
      && (At(sys, who).Loaded? ==>
            At(sys, who).version <= |sys.saved| && (At(sys, who).version == |sys.saved| ==> At(sys, who).seen == sys.store))
      && (At(sys, who).Acted? ==>
            && At(sys, who).version <= |sys.saved|
            && (At(sys, who).version == |sys.saved| ==> At(sys, who).next == act(sys.store, At(sys, who).action)))
  }

  /** A step changes only its own caller's section. */
  lemma OthersStay<S, A>(sys: System<S, A>, e: Event<A>, act: (S, A) -> S)
    ensures forall who :: e.Pass? || who != e.who ==> At(Happen(sys, e, act), who) == At(sys, who)
  {
    forall who | e.Pass? || who != e.who ensures At(Happen(sys, e, act), who) == At(sys, who) {
    }
  }

  lemma CurrentStays<S, A>(sys: System<S, A>, e: Event<A>, act: (S, A) -> S)
    requires Current(sys, act)
    ensures Current(Happen(sys, e, act), act)
  {
    OthersStay(sys, e, act);
  }

  lemma FoldStays<S, A>(start: S, sys: System<S, A>, e: Event<A>, act: (S, A) -> S)
    requires Current(sys, act) && sys.store == Fold(start, sys.saved, act) && CleanSave(sys, e)
    ensures Happen(sys, e, act).store == Fold(start, Happen(sys, e, act).saved, act)
  {
    var next := Happen(sys, e, act);
    if e.Save? && At(sys, e.who).Acted? {
      assert next.saved[..|sys.saved|] == sys.saved;
    }
  }

  lemma {:induction false} CleanRunFolds<S, A>(start: S, sys: System<S, A>, es: seq<Event<A>>, act: (S, A) -> S)
    requires Current(sys, act) && sys.store == Fold(start, sys.saved, act) && AllClean(sys, es, act)
    ensures RunAll(sys, es, act).store == Fold(start, RunAll(sys, es, act).saved, act)
    decreases |es|
  {
    hide Current, Happen, CleanSave, Fold;
    if es != [] {
      CurrentStays(sys, es[0], act);
      FoldStays(start, sys, es[0], act);
      CleanRunFolds(start, Happen(sys, es[0], act), es[1..], act);
    }
  }

  /** Systems that differ in what they store and compute, and in nothing else. */
  ghost predicate Alike<S, T, A>(x: System<S, A>, y: System<T, A>) {
    && x.key == y.key && x.tokens == y.tokens && x.saved == y.saved && x.now == y.now
    && forall who :: SameSection(At(x, who), At(y, who))
  }

  ghost predicate SameSection<S, T, A>(x: Section<S, A>, y: Section<T, A>) {
    match x
    case Idle => y.Idle?
    case Holding(token) => y == Holding(token)
    case Loaded(token, _, version) => y.Loaded? && y.token == token && y.version == version
    case Acted(token, action, _, version) => y.Acted? && y.token == token && y.action == action && y.version == version
    case Finished(token) => y == Finished(token)
  }

  lemma AlikeStays<S, T, A>(x: System<S, A>, y: System<T, A>, e: Event<A>, f: (S, A) -> S, g: (T, A) -> T)
    requires Alike(x, y)
    ensures Alike(Happen(x, e, f), Happen(y, e, g)) && CleanSave(x, e) == CleanSave(y, e)
  {
    OthersStay(x, e, f);
    OthersStay(y, e, g);
    var a, b := Happen(x, e, f), Happen(y, e, g);
    forall who ensures SameSection(At(a, who), At(b, who)) {
      assert SameSection(At(x, who), At(y, who));
      if !e.Pass? && who == e.who {
        assert SameSection(At(x, e.who), At(y, e.who));
      }
    }
  }

  /** Whether a run is clean does not depend on what is stored or computed. */
  lemma {:induction false} CleanAlike<S, T, A>(x: System<S, A>, y: System<T, A>, es: seq<Event<A>>, f: (S, A) -> S, g: (T, A) -> T)
    requires Alike(x, y)
    ensures AllClean(x, es, f) == AllClean(y, es, g)
    decreases |es|
  {
    hide Alike, Happen, CleanSave;
    if es != [] {
      AlikeStays(x, y, es[0], f, g);
      CleanAlike(Happen(x, es[0], f), Happen(y, es[0], g), es[1..], f, g);
    }
  }

  /** The action that remembers every action. */
  function Append<A>(store: seq<A>, action: A): seq<A> {
    store + [action]
  }

  predicate Clean<A>(es: seq<Event<A>>) {
    AllClean(Opened<seq<A>, A>([]), es, Append)
  }

  /** An update has been lost for good: no section still knows as much as was saved. */
  ghost predicate Short<A>(sys: System<seq<A>, A>) {
    && |sys.store| < |sys.saved|
    && forall who ::
         && (At(sys, who).Loaded? ==> |At(sys, who).seen| < |sys.saved|)
         && (At(sys, who).Acted? ==> |At(sys, who).next| <= |sys.saved|)
  }

  /** Nobody knows more than was saved before its load. */
  ghost predicate Bounded<A>(sys: System<seq<A>, A>) {
    && |sys.store| <= |sys.saved|
    && forall who ::
         && (At(sys, who).Loaded? ==> |At(sys, who).seen| <= At(sys, who).version <= |sys.saved|)
         && (At(sys, who).Acted? ==> |At(sys, who).next| <= At(sys, who).version + 1 && At(sys, who).version <= |sys.saved|)
  }

  lemma BoundedStays<A>(sys: System<seq<A>, A>, e: Event<A>)
    requires Bounded(sys)
    ensures Bounded(Happen(sys, e, Append)) && (!CleanSave(sys, e) ==> Short(Happen(sys, e, Append)))
  {
    OthersStay(sys, e, Append);
  }

  lemma ShortStays<A>(sys: System<seq<A>, A>, e: Event<A>)
    requires Short(sys)
    ensures Short(Happen(sys, e, Append))
  {
    OthersStay(sys, e, Append);
  }

  lemma {:induction false} ShortForever<A>(sys: System<seq<A>, A>, es: seq<Event<A>>)
    requires Short(sys)
    ensures Short(RunAll(sys, es, Append))
    decreases |es|
  {
    hide Short, Happen;
    if es != [] {
      ShortStays(sys, es[0]);
      ShortForever(Happen(sys, es[0], Append), es[1..]);
    }
  }

  lemma {:induction false} UncleanIsShort<A>(sys: System<seq<A>, A>, es: seq<Event<A>>)
    requires Bounded(sys) && !AllClean(sys, es, Append)
    ensures Short(RunAll(sys, es, Append))
    decreases |es|
  {
    hide Short, Bounded, Happen, CleanSave;
    BoundedStays(sys, es[0]);
    if CleanSave(sys, es[0]) {
      UncleanIsShort(Happen(sys, es[0], Append), es[1..]);
    } else {
      ShortForever(Happen(sys, es[0], Append), es[1..]);
    }
  }

  lemma {:induction false} FoldAppends<A>(saved: seq<Entry<A>>)
    ensures |Fold([], saved, Append)| == |saved|
    decreases |saved|
  {
    if saved != [] {
      FoldAppends(saved[..|saved| - 1]);
    }
  }

  /** If no other save ever stands between a section's load and its save, the store is the fold of
      the saved actions, whatever is stored and whatever the actions do. */
  lemma CleanFolds<S, A>(start: S, es: seq<Event<A>>, act: (S, A) -> S)
    requires Clean(es)
    ensures var end := RunAll(Opened<S, A>(start), es, act); end.store == Fold(start, end.saved, act)
  {
    CleanAlike(Opened<seq<A>, A>([]), Opened<S, A>(start), es, Append, act);
    CleanRunFolds(start, Opened<S, A>(start), es, act);
  }

  /** And only then: an action that remembers every action loses one as soon as a single save
      overwrites another. So no update of any kind is lost exactly when every save is clean. */
  lemma FoldIffClean<A>(es: seq<Event<A>>)
    ensures var end := RunAll(Opened<seq<A>, A>([]), es, Append);
            end.store == Fold([], end.saved, Append) <==> Clean(es)
  {
    var end := RunAll(Opened<seq<A>, A>([]), es, Append);
    if Clean(es) {
      CleanFolds([], es, Append);
    } else {
      UncleanIsShort(Opened<seq<A>, A>([]), es);
      FoldAppends(end.saved);
    }
  }

  // ---- The invariant of a run whose saves are all in their lease ----

  predicate Has<S, A>(s: Section<S, A>, token: nat) {
    s != Idle && s.token == token
  }

  /** The caller whose id the key holds. */
  predicate Owns<S, A>(sys: System<S, A>, who: nat) {
    sys.key.Some? && Has(At(sys, who), sys.key.value.token)
  }

  /** Ids are unique. */
  ghost predicate TokensOk<S, A>(sys: System<S, A>) {
    && (forall who :: At(sys, who) != Idle ==> At(sys, who).token < sys.tokens)
    && (forall who, other :: who != other && At(sys, who) != Idle ==> !Has(At(sys, other), At(sys, who).token))
    && (sys.key.Some? ==> sys.key.value.token < sys.tokens)
  }

  /** Nobody has saved since the holder of the key loaded. */
  ghost predicate HolderFirst<S, A>(sys: System<S, A>) {
    forall who :: Owns(sys, who) && (At(sys, who).Loaded? || At(sys, who).Acted?) ==> At(sys, who).version == |sys.saved|
  }

  predicate Increasing<A>(saved: seq<Entry<A>>) {
    forall i, j :: 0 <= i < j < |saved| ==> saved[i].token < saved[j].token
  }

  predicate Below<A>(saved: seq<Entry<A>>, bound: nat) {
    forall i :: 0 <= i < |saved| ==> saved[i].token < bound
  }

  /** Saves follow lock order: none is newer than the key, and the holder has not saved yet. */
  ghost predicate OrderOk<S, A>(sys: System<S, A>) {
    && Increasing(sys.saved)
    && Below(sys.saved, sys.tokens)
    && (sys.key.Some? ==> Below(sys.saved, sys.key.value.token + 1))
    && (forall who :: Owns(sys, who) && !At(sys, who).Finished? ==> Below(sys.saved, sys.key.value.token))
  }

  ghost predicate SystemOk<S, A>(sys: System<S, A>) {
    TokensOk(sys) && HolderFirst(sys) && OrderOk(sys)
  }

  /** Nobody's id changes but by taking the next unused one. */
  lemma ActorToken<S, A>(sys: System<S, A>, e: Event<A>, act: (S, A) -> S)
    requires !e.Pass?
    ensures var was, now, next := At(sys, e.who), At(Happen(sys, e, act), e.who), Happen(sys, e, act);
            && next.tokens >= sys.tokens
            && (was != Idle && now != Idle ==> now.token == was.token)
            && (was == Idle && now != Idle ==> now.token == sys.tokens && next.tokens == sys.tokens + 1)
  {
  }

  lemma TokensStay<S, A>(sys: System<S, A>, e: Event<A>, act: (S, A) -> S)
    requires TokensOk(sys)
    ensures TokensOk(Happen(sys, e, act))
  {
    var next := Happen(sys, e, act);
    OthersStay(sys, e, act);
    if !e.Pass? {
      ActorToken(sys, e, act);
    }
    assert sys.key.Some? && next.key.Some? ==> next.key == sys.key;
  }

  lemma HolderStays<S, A>(sys: System<S, A>, e: Event<A>, act: (S, A) -> S)
    requires TokensOk(sys) && HolderFirst(sys) && InLease(sys, e)
    ensures HolderFirst(Happen(sys, e, act))
  {
    var next := Happen(sys, e, act);
    OthersStay(sys, e, act);
    forall who | Owns(next, who) && (At(next, who).Loaded? || At(next, who).Acted?)
      ensures At(next, who).version == |next.saved|
    {
      assert Owns(sys, who);
    }
  }

  lemma OrderStays<S, A>(sys: System<S, A>, e: Event<A>, act: (S, A) -> S)
    requires TokensOk(sys) && OrderOk(sys) && InLease(sys, e)
    ensures OrderOk(Happen(sys, e, act))
  {
    var next := Happen(sys, e, act);
    OthersStay(sys, e, act);
    forall who | Owns(next, who) && !At(next, who).Finished? ensures Below(next.saved, next.key.value.token) {
      if e.TryAcquire? && next != sys {
        assert next.key.value.token == sys.tokens;
      } else {
        assert Owns(sys, who);
      }
    }
  }

  /** Every event keeps the protocol invariant, and a save inside its lease is clean. */
  lemma HappenOk<S, A>(sys: System<S, A>, e: Event<A>, act: (S, A) -> S)
    requires SystemOk(sys) && InLease(sys, e)
    ensures SystemOk(Happen(sys, e, act)) && CleanSave(sys, e)
  {
    TokensStay(sys, e, act);
    HolderStays(sys, e, act);
    OrderStays(sys, e, act);
    hide TokensOk, OrderOk;
    if e.Save? && At(sys, e.who).Acted? {
      assert Owns(sys, e.who);
    }
  }

  lemma {:induction false} RunAllOk<S, A>(sys: System<S, A>, es: seq<Event<A>>, act: (S, A) -> S)
    requires SystemOk(sys) && AllInLease(sys, es, act)
    ensures SystemOk(RunAll(sys, es, act)) && AllClean(sys, es, act)
    decreases |es|
  {
    hide SystemOk, Happen, CleanSave, InLease;
    if es != [] {
      HappenOk(sys, es[0], act);
      RunAllOk(Happen(sys, es[0], act), es[1..], act);
    }
  }

  /** No lost update: if every save is made inside its lease, then whatever the interleaving of
      sections, failures, crashes and expiries, every save is clean, so the store is the fold of the
      saved actions, each lock saved at most once, in the order in which the locks were taken. */
  lemma NoLostUpdate<S, A>(start: S, es: seq<Event<A>>, act: (S, A) -> S)
    requires AllInLease(Opened<S, A>(start), es, act)
    ensures var end := RunAll(Opened<S, A>(start), es, act);
            end.store == Fold(start, end.saved, act) && Increasing(end.saved)
    ensures Clean(es)
  {
    RunAllOk(Opened<S, A>(start), es, act);
    CleanAlike(Opened<S, A>(start), Opened<seq<A>, A>([]), es, act, Append);
    CleanRunFolds(start, Opened<S, A>(start), es, act);
  }

  // ---- Outside the lease ----

  function Plus(store: int, amount: int): int {
    store + amount
  }

  /** Caller 0 loads and is held up until its lease has run out. */
  function Stalled(): seq<Event<int>> {
    [TryAcquire(0, 5), Load(0), Act(0, 1), Pass(5)]
  }

  /** Caller 1 adds ten in the meantime; then caller 0 saves what it had computed. */
  function Overtaken(): seq<Event<int>> {
    [TryAcquire(1, 5), Load(1), Act(1, 10), Save(1), Save(0)]
  }

  lemma RunCons<S, A>(sys: System<S, A>, es: seq<Event<A>>, act: (S, A) -> S)
    requires es != []
    ensures RunAll(sys, es, act) == RunAll(Happen(sys, es[0], act), es[1..], act)
    ensures AllInLease(sys, es, act) == (InLease(sys, es[0]) && AllInLease(Happen(sys, es[0], act), es[1..], act))
  {
  }

  lemma StalledRun(s: System<int, int>)
    requires s == Opened<int, int>(0)
    ensures RunAll(s, Stalled(), Plus) == System(5, None, 1, map[0 := Acted(0, 1, 1, 0)], 0, [])
  {
    var es := Stalled();
    var s1 := Happen(s, es[0], Plus);
    var s2 := Happen(s1, es[1], Plus);
    var s3 := Happen(s2, es[2], Plus);
    RunCons(s, es, Plus);
    RunCons(s1, es[1..], Plus);
    RunCons(s2, es[2..], Plus);
    RunCons(s3, es[3..], Plus);
    assert s3 == System(0, Some(Lease(0, 5)), 1, map[0 := Acted(0, 1, 1, 0)], 0, []);
    assert es[1..][1..] == es[2..] && es[2..][1..] == es[3..] && es[3..][1..] == [];
  }

  lemma OvertakenRun(s: System<int, int>)
    requires s == System(5, None, 1, map[0 := Acted(0, 1, 1, 0)], 0, [])
    ensures RunAll(s, Overtaken(), Plus).store == 1
    ensures RunAll(s, Overtaken(), Plus).saved == [Entry(1, 10), Entry(0, 1)]
    ensures !AllInLease(s, Overtaken(), Plus)
  {
    var es := Overtaken();
    var s1 := Happen(s, es[0], Plus);
    var s2 := Happen(s1, es[1], Plus);
    var s3 := Happen(s2, es[2], Plus);
    var s4 := Happen(s3, es[3], Plus);
    var s5 := Happen(s4, es[4], Plus);
    assert s3 == System(5, Some(Lease(1, 10)), 2, map[0 := Acted(0, 1, 1, 0), 1 := Acted(1, 10, 10, 0)], 0, []);
    assert s4 == System(5, Some(Lease(1, 10)), 2, map[0 := Acted(0, 1, 1, 0), 1 := Finished(1)], 10, [Entry(1, 10)]);
    assert s5.store == 1 && s5.saved == [Entry(1, 10), Entry(0, 1)];
    assert !InLease(s4, es[4]);
    hide Happen, InLease, RunAll, AllInLease;
    RunCons(s, es, Plus);
    RunCons(s1, es[1..], Plus);
    RunCons(s2, es[2..], Plus);
    RunCons(s3, es[3..], Plus);
    RunCons(s4, es[4..], Plus);
    assert es[1..][1..] == es[2..] && es[2..][1..] == es[3..] && es[3..][1..] == es[4..] && es[4..][1..] == [];
    RunNone(s5, Plus);
  }

  lemma RunNone<S, A>(sys: System<S, A>, act: (S, A) -> S)
    ensures RunAll(sys, [], act) == sys
  {
  }

  /** A section that overruns its lease does lose an update: one and ten were both saved, and the
      store holds one. */
  lemma OverrunLosesUpdate()
    ensures var s := RunAll(Opened<int, int>(0), Stalled(), Plus);
            var end := RunAll(s, Overtaken(), Plus);
            end.store == 1 && end.saved == [Entry(1, 10), Entry(0, 1)] && !AllInLease(s, Overtaken(), Plus)
  {
    hide RunAll, AllInLease, Stalled, Overtaken;
    StalledRun(Opened<int, int>(0));
    OvertakenRun(RunAll(Opened<int, int>(0), Stalled(), Plus));
  }

  // ---- The objects ----

  /** The key on the lock server. */
  class LockKey {
    var holder: Option<string>

    constructor ()
      ensures holder == None
    {
      holder := None;
    }

    /** Set the key only if it does not exist. */
    method SetIfAbsent(lockId: string) returns (acquired: bool)
      modifies this
      ensures acquired == old(holder).None?
      ensures holder == if acquired then Some(lockId) else old(holder)
    {
      acquired := holder.None?;
      if acquired {
        holder := Some(lockId);
      }
    }

    /** The unlock script. */
    method DeleteIfHeldBy(lockId: string) returns (deleted: bool)
      modifies this
      ensures deleted == (old(holder) == Some(lockId))
      ensures holder == if deleted then None else old(holder)
    {
      deleted := holder == Some(lockId);
      if deleted {
        holder := None;
      }
    }
  }

  class LockHandle {
    const key: LockKey
    const lockId: string
    var disposed: bool

    constructor (key: LockKey, lockId: string)
      ensures this.key == key && this.lockId == lockId && !disposed
    {
      this.key, this.lockId, disposed := key, lockId, false;
    }

    /** Releases at most once, and only the caller's own lock. */
    method Dispose()
      modifies this`disposed, key
      ensures disposed
      ensures key.holder == if !old(disposed) && old(key.holder) == Some(lockId) then None else old(key.holder)
    {
      if disposed {
        return;
      }
      disposed := true;
      var deleted := key.DeleteIfHeldBy(lockId);
    }
  }

  const RETRY_INTERVAL := 50

  /** The moments at which a caller tries whose patience ends at `deadline`, the next one being
      `now`; `took` says how long an attempt at a moment takes. */
  function Attempts(deadline: int, took: int -> nat, now: int): (r: seq<int>)
    ensures r != [] && r[0] == now
    decreases deadline - now
  {
    var failed := now + took(now);
    [now] + if deadline - failed <= 0 then [] else Attempts(deadline, took, failed + Min(RETRY_INTERVAL, deadline - failed))
  }

  /** A caller does not try again after its deadline, does not give up before it, and lets 50 ms go by
      between a failed attempt and the next, less only where the deadline comes first. */
  lemma {:induction false} PatienceKept(deadline: int, took: int -> nat, now: int)
    requires now <= deadline
    ensures var ts := Attempts(deadline, took, now);
            && (forall k :: 0 <= k < |ts| ==> ts[k] <= deadline)
            && ts[|ts| - 1] + took(ts[|ts| - 1]) >= deadline
            && (forall k :: 0 <= k < |ts| - 1 ==>
                  var failed := ts[k] + took(ts[k]);
                  failed < deadline && ts[k + 1] == if deadline - failed < 50 then deadline else failed + 50)
    decreases deadline - now
  {
    var failed := now + took(now);
    if deadline - failed > 0 {
      PatienceKept(deadline, took, failed + Min(RETRY_INTERVAL, deadline - failed));
    }
  }

  /** The retry loop; `free` says when the key can be set. It succeeds at its first attempt that finds
      the key free, and gives up only if none of its attempts does. */
  method RetryUntil(deadline: int, took: int -> nat, free: int -> bool) returns (at: Option<int>)
    ensures at.Some? ==> exists k :: 0 <= k < |Attempts(deadline, took, 0)| && Attempts(deadline, took, 0)[k] == at.value
                                     && free(at.value) && forall j :: 0 <= j < k ==> !free(Attempts(deadline, took, 0)[j])
    ensures at.None? ==> forall j :: 0 <= j < |Attempts(deadline, took, 0)| ==> !free(Attempts(deadline, took, 0)[j])
  {
    var now := 0;
    ghost var ts := Attempts(deadline, took, 0);
    ghost var k := 0;
    while true
      invariant 0 <= k < |ts| && ts[k..] == Attempts(deadline, took, now)
      invariant forall j :: 0 <= j < k ==> !free(ts[j])
      decreases deadline - now
    {
      assert ts[k] == ts[k..][0] == now;
      if free(now) {
        return Some(now);
      }
      now := now + took(now);
      var remaining := deadline - now;
      if remaining <= 0 {
        return None;
      }
      assert ts[k..][1..] == ts[k + 1..];
      now, k := now + Min(RETRY_INTERVAL, remaining), k + 1;
    }
  }
}
