/** What the lock buys the game: the room is stored and loaded, acted on and saved under the lock;
    the move-completed flags stay in each server's memory, where an action changes them before it is
    saved and a notice of a round resolved elsewhere changes them without the lock. */
module LockedRuns {
  import opened HexTypes
  import opened Rooms
  import opened RoomLedger
  import opened SessionWorld
  import LockProtocol
  import RoadRounds
  import Scenarios

  /** The stored room, with the history of what was saved. */
  datatype Kept = Kept(room: Room, completed: seq<int>, published: seq<Event>)

  /** An action as it was carried out: the step and what the servers remembered at that moment. */
  datatype Deed = Deed(step: Step, flags: map<ServerId, PerSide<bool>>)

  type Store = LockProtocol.System<Kept, Deed>

  function Seen(k: Kept, flags: map<ServerId, PerSide<bool>>): World {
    World(k.room, flags, k.completed, k.published)
  }

  function KeptOf(w: World): Kept {
    Kept(w.room, w.completed, w.published)
  }

  function Perform(k: Kept, deed: Deed): Kept {
    KeptOf(Do(Seen(k, deed.flags), deed.step))
  }

  // ---- Servers around one store ----

  datatype Cluster = Cluster(sys: Store, flags: map<ServerId, PerSide<bool>>)

  datatype Happening =
    | Locked(e: LockProtocol.Event<Step>)
    | Notice(server: ServerId)

  /** The event of the lock protocol, with what the servers remember when it happens. */
  function Told(e: LockProtocol.Event<Step>, flags: map<ServerId, PerSide<bool>>): LockProtocol.Event<Deed> {
    match e
    case TryAcquire(who, expiry) => LockProtocol.TryAcquire(who, expiry)
    case Load(who) => LockProtocol.Load(who)
    case Act(who, step) => LockProtocol.Act(who, Deed(step, flags))
    case Save(who) => LockProtocol.Save(who)
    case Fail(who) => LockProtocol.Fail(who)
    case Release(who) => LockProtocol.Release(who)
    case Crash(who) => LockProtocol.Crash(who)
    case Pass(duration) => LockProtocol.Pass(duration)
  }

  /** Acting changes the flags at once, whether or not a save follows. */
  function Remembered(c: Cluster, e: LockProtocol.Event<Step>): map<ServerId, PerSide<bool>> {
    if e.Act? && LockProtocol.At(c.sys, e.who).Loaded?
    then Do(Seen(LockProtocol.At(c.sys, e.who).seen, c.flags), e.action).flags
    else c.flags
  }

  function Occur(c: Cluster, h: Happening): Cluster {
    match h
    case Locked(e) => Cluster(LockProtocol.Happen(c.sys, Told(e, c.flags), Perform), Remembered(c, e))
    case Notice(server) => c.(flags := Do(Seen(c.sys.store, c.flags), RemoteRound(server)).flags)
  }

  function OccurAll(c: Cluster, hs: seq<Happening>): Cluster
    decreases |hs|
  {
    if hs == [] then c else OccurAll(Occur(c, hs[0]), hs[1..])
  }

  /** What the lock protocol gets to see of it. */
  function ProtocolOf(c: Cluster, hs: seq<Happening>): seq<LockProtocol.Event<Deed>>
    decreases |hs|
  {
    if hs == [] then []
    else (if hs[0].Locked? then [Told(hs[0].e, c.flags)] else []) + ProtocolOf(Occur(c, hs[0]), hs[1..])
  }

  function Opening(owner: ServerId): Cluster {
    Cluster(LockProtocol.Opened<Kept, Deed>(KeptOf(Start(owner))), map[])
  }

  lemma {:induction false} ProtocolRuns(c: Cluster, hs: seq<Happening>)
    ensures OccurAll(c, hs).sys == LockProtocol.RunAll(c.sys, ProtocolOf(c, hs), Perform)
    decreases |hs|
  {
    hide Perform, Told, LockProtocol.Happen;
    if hs != [] {
      ProtocolRuns(Occur(c, hs[0]), hs[1..]);
      var rest := ProtocolOf(Occur(c, hs[0]), hs[1..]);
      if hs[0].Locked? {
        assert ([Told(hs[0].e, c.flags)] + rest)[1..] == rest;
      } else {
        assert [] + rest == rest;
      }
    }
  }

  /** Every saved action after the flags it saw. */
  function StepsOf(saved: seq<LockProtocol.Entry<Deed>>): seq<Step>
    decreases |saved|
  {
    if saved == [] then []
    else
      var deed := saved[|saved| - 1].action;
      StepsOf(saved[..|saved| - 1]) + [Memory(deed.flags)] + [deed.step]
  }

  lemma {:induction false} FoldIsRun(w: World, saved: seq<LockProtocol.Entry<Deed>>)
    ensures LockProtocol.Fold(KeptOf(w), saved, Perform) == KeptOf(Run(w, StepsOf(saved)))
    decreases |saved|
  {
    hide Do, Run;
    if saved == [] {
      RunNothing(w);
    } else {
      var front, deed := saved[..|saved| - 1], saved[|saved| - 1].action;
      FoldIsRun(w, front);
      RunSnoc(w, StepsOf(front), Memory(deed.flags));
      RunSnoc(w, StepsOf(front) + [Memory(deed.flags)], deed.step);
      MemoryDoes(Run(w, StepsOf(front)), deed.flags);
    }
  }

  lemma RunNothing(w: World)
    ensures Run(w, []) == w
  {
  }

  lemma MemoryDoes(w: World, flags: map<ServerId, PerSide<bool>>)
    ensures Do(w, Memory(flags)) == w.(flags := flags)
  {
  }

  /** Servers that save inside their lease leave a room, and a history of rounds and events, that one
      run of whole actions in lock order also leaves, each action seeing some flags: whatever actions
      fail before their save, whenever notices arrive. So everything proved of all runs holds of it. */
  lemma ServersAreARun(owner: ServerId, hs: seq<Happening>)
    requires LockProtocol.AllInLease(Opening(owner).sys, ProtocolOf(Opening(owner), hs), Perform)
    ensures var end := OccurAll(Opening(owner), hs);
            && end.sys.store == KeptOf(Run(Start(owner), StepsOf(end.sys.saved)))
            && LockProtocol.Increasing(end.sys.saved)
            && WorldOk(Seen(end.sys.store, end.flags))
  {
    hide Do, Run, WorldOk, Start, Perform;
    ProtocolRuns(Opening(owner), hs);
    LockProtocol.NoLostUpdate(KeptOf(Start(owner)), ProtocolOf(Opening(owner), hs), Perform);
    var end := OccurAll(Opening(owner), hs);
    FoldIsRun(Start(owner), end.sys.saved);
    Reachable(owner, StepsOf(end.sys.saved));
    FlagsIrrelevant(Run(Start(owner), StepsOf(end.sys.saved)), end.flags);
  }

  // ---- Servers whose actions are saved once they have acted ----

  /** An action is carried out inside its lease, and saved before the lease ends. */
  ghost predicate PromptEvent(sys: Store, e: LockProtocol.Event<Deed>) {
    && LockProtocol.InLease(sys, e)
    && (e.Act? && LockProtocol.At(sys, e.who).Loaded? ==> LockProtocol.Owns(sys, e.who))
    && (e.Fail? || e.Crash? ==> !LockProtocol.At(sys, e.who).Acted?)
    && (e.Pass? ==> forall who :: LockProtocol.Owns(sys, who) && LockProtocol.At(sys, who).Acted? ==>
                                    sys.now + e.duration < sys.key.value.until)
  }

  ghost predicate Prompt(c: Cluster, hs: seq<Happening>)
    decreases |hs|
  {
    hs == [] || ((hs[0].Locked? ==> PromptEvent(c.sys, Told(hs[0].e, c.flags))) && Prompt(Occur(c, hs[0]), hs[1..]))
  }

  ghost predicate NobodyActing(sys: Store) {
    forall who :: !LockProtocol.At(sys, who).Acted?
  }

  /** The actions as they are carried out, and the notices as they come. */
  function StepOf(c: Cluster, h: Happening): seq<Step> {
    match h
    case Locked(e) => if e.Act? && LockProtocol.At(c.sys, e.who).Loaded? then [e.action] else []
    case Notice(server) => [RemoteRound(server)]
  }

  function PlainSteps(c: Cluster, hs: seq<Happening>): seq<Step>
    decreases |hs|
  {
    if hs == [] then [] else StepOf(c, hs[0]) + PlainSteps(Occur(c, hs[0]), hs[1..])
  }

  /** The world `w` is what the servers remember, with what is stored or about to be. */
  ghost predicate Tracks(c: Cluster, w: World) {
    && LockProtocol.SystemOk(c.sys) && LockProtocol.Current(c.sys, Perform)
    && c.flags == w.flags
    && (forall who :: LockProtocol.At(c.sys, who).Acted? ==>
          LockProtocol.Owns(c.sys, who) && LockProtocol.At(c.sys, who).next == KeptOf(w))
    && (NobodyActing(c.sys) ==> c.sys.store == KeptOf(w))
  }

  lemma NoticeTracks(c: Cluster, w: World, server: ServerId)
    requires Tracks(c, w)
    ensures Tracks(Occur(c, Notice(server)), Do(w, RemoteRound(server)))
  {
    hide LockProtocol.SystemOk, LockProtocol.Current;
  }

  /** The one who acts is alone and has seen what is stored. */
  lemma ActorKnows(c: Cluster, w: World, who: nat)
    requires Tracks(c, w) && LockProtocol.Owns(c.sys, who) && LockProtocol.At(c.sys, who).Loaded?
    ensures NobodyActing(c.sys) && LockProtocol.At(c.sys, who).seen == KeptOf(w)
  {
    assert LockProtocol.TokensOk(c.sys) && LockProtocol.HolderFirst(c.sys);
  }

  lemma ActTracks(c: Cluster, w: World, who: nat, step: Step)
    requires Tracks(c, w) && LockProtocol.Owns(c.sys, who) && LockProtocol.At(c.sys, who).Loaded?
    ensures Tracks(Occur(c, Locked(LockProtocol.Act(who, step))), Do(w, step))
  {
    hide Do;
    var e := LockProtocol.Act(who, Deed(step, c.flags));
    ActorKnows(c, w, who);
    LockProtocol.HappenOk(c.sys, e, Perform);
    LockProtocol.CurrentStays(c.sys, e, Perform);
    LockProtocol.OthersStay(c.sys, e, Perform);
    hide LockProtocol.SystemOk, LockProtocol.Current;
    assert Seen(KeptOf(w), c.flags) == w;
    var next := Occur(c, Locked(LockProtocol.Act(who, step)));
    assert LockProtocol.At(next.sys, who).Acted?;
  }

  lemma OtherTracks(c: Cluster, w: World, e: LockProtocol.Event<Step>)
    requires Tracks(c, w) && PromptEvent(c.sys, Told(e, c.flags)) && StepOf(c, Locked(e)) == []
    ensures Tracks(Occur(c, Locked(e)), w)
  {
    hide Do, Perform;
    var told := Told(e, c.flags);
    LockProtocol.HappenOk(c.sys, told, Perform);
    LockProtocol.CurrentStays(c.sys, told, Perform);
    LockProtocol.OthersStay(c.sys, told, Perform);
    KeyStays(c.sys, told);
    hide LockProtocol.Current;
    var next := Occur(c, Locked(e));
    forall who | LockProtocol.At(next.sys, who).Acted?
      ensures LockProtocol.Owns(next.sys, who) && LockProtocol.At(next.sys, who).next == KeptOf(w)
    {
      assert LockProtocol.At(c.sys, who).Acted?;
    }
    if NobodyActing(next.sys) && !(e.Save? && LockProtocol.At(c.sys, e.who).Acted?) {
      forall who ensures !LockProtocol.At(c.sys, who).Acted? {
        assert !LockProtocol.At(next.sys, who).Acted?;
      }
    }
  }

  /** While somebody who acted holds the key, nobody takes it away. */
  lemma KeyStays(sys: Store, e: LockProtocol.Event<Deed>)
    requires LockProtocol.SystemOk(sys) && PromptEvent(sys, e)
    ensures forall who :: LockProtocol.Owns(sys, who) && LockProtocol.At(sys, who).Acted? ==>
                            LockProtocol.Happen(sys, e, Perform).key == sys.key
  {
  }

  lemma {:induction false} PromptTracks(c: Cluster, w: World, hs: seq<Happening>)
    requires Tracks(c, w) && Prompt(c, hs)
    ensures Tracks(OccurAll(c, hs), Run(w, PlainSteps(c, hs)))
    decreases |hs|
  {
    hide Tracks, Do, Occur, PromptEvent, Perform;
    if hs != [] {
      var h := hs[0];
      match h {
        case Locked(e) =>
          PromptTracksEvent(c, w, e);
        case Notice(server) =>
          NoticeTracks(c, w, server);
      }
      RunFirst(w, StepOf(c, h), PlainSteps(Occur(c, h), hs[1..]));
      PromptTracks(Occur(c, h), Run(w, StepOf(c, h)), hs[1..]);
    } else {
      RunNothing(w);
    }
  }

  lemma PromptTracksEvent(c: Cluster, w: World, e: LockProtocol.Event<Step>)
    requires Tracks(c, w) && PromptEvent(c.sys, Told(e, c.flags))
    ensures Tracks(Occur(c, Locked(e)), Run(w, StepOf(c, Locked(e))))
  {
    hide Tracks, Do, Occur, Perform;
    if e.Act? && LockProtocol.At(c.sys, e.who).Loaded? {
      ActTracks(c, w, e.who, e.action);
    } else {
      OtherTracks(c, w, e);
    }
  }

  /** A first step, if there is one, then the rest. */
  lemma RunFirst(w: World, first: seq<Step>, rest: seq<Step>)
    requires |first| <= 1
    ensures Run(w, first + rest) == Run(Run(w, first), rest)
    ensures first != [] ==> Run(w, first) == Do(w, first[0])
  {
    hide Do;
    if first == [] {
      assert [] + rest == rest;
    } else {
      assert first[1..] == [] && (first + rest)[1..] == rest;
    }
  }

  /** If every action is carried out inside its lease and saved before the lease ends, then the room
      and all the flags together are those of the run of the actions as they were carried out and the
      notices as they came: every theorem about runs holds, those about flags included. */
  lemma PromptServersAreARun(owner: ServerId, hs: seq<Happening>)
    requires Prompt(Opening(owner), hs) && NobodyActing(OccurAll(Opening(owner), hs).sys)
    ensures var end := OccurAll(Opening(owner), hs);
            Seen(end.sys.store, end.flags) == Run(Start(owner), PlainSteps(Opening(owner), hs))
  {
    hide Do, Run, Perform;
    PromptTracks(Opening(owner), Start(owner), hs);
  }

  // ---- An action that acts and is not saved ----

  function Section(step: Step): seq<Happening> {
    [Locked(LockProtocol.TryAcquire(0, 5)), Locked(LockProtocol.Load(0)), Locked(LockProtocol.Act(0, step)),
     Locked(LockProtocol.Save(0)), Locked(LockProtocol.Release(0))]
  }

  function Failing(step: Step): seq<Happening> {
    [Locked(LockProtocol.TryAcquire(0, 5)), Locked(LockProtocol.Load(0)), Locked(LockProtocol.Act(0, step)),
     Locked(LockProtocol.Fail(0)), Locked(LockProtocol.Release(0))]
  }

  /** Nobody is inside a section, and the world is this one. */
  predicate Shows(c: Cluster, w: World) {
    c.sys.key == None && LockProtocol.At(c.sys, 0) == LockProtocol.Idle && c.sys.store == KeptOf(w) && c.flags == w.flags
  }

  lemma OccurFive(c: Cluster, h1: Happening, h2: Happening, h3: Happening, h4: Happening, h5: Happening)
    ensures OccurAll(c, [h1, h2, h3, h4, h5]) == Occur(Occur(Occur(Occur(Occur(c, h1), h2), h3), h4), h5)
  {
    hide Occur;
    var hs := [h1, h2, h3, h4, h5];
    assert hs[1..] == [h2, h3, h4, h5] && hs[1..][1..] == [h3, h4, h5] && hs[1..][1..][1..] == [h4, h5];
    assert [h4, h5][1..] == [h5] && [h5][1..] == [];
    assert OccurAll(c, hs) == OccurAll(Occur(Occur(c, h1), h2), [h3, h4, h5]);
    var d := Occur(Occur(Occur(c, h1), h2), h3);
    assert OccurAll(d, [h4, h5]) == OccurAll(Occur(d, h4), [h5]) == OccurAll(Occur(Occur(d, h4), h5), []);
  }

  /** Locked, loaded and acted. */
  lemma Acts(c: Cluster, w: World, step: Step) returns (d: Cluster)
    requires Shows(c, w)
    ensures d == Occur(Occur(Occur(c, Section(step)[0]), Section(step)[1]), Section(step)[2])
    ensures d.sys.key.Some? && d.sys.store == KeptOf(w) && d.flags == Do(w, step).flags
    ensures var s := LockProtocol.At(d.sys, 0);
            s.Acted? && s.token == d.sys.key.value.token && s.next == KeptOf(Do(w, step))
  {
    hide Do;
    assert Seen(KeptOf(w), c.flags) == w;
    d := Occur(Occur(Occur(c, Section(step)[0]), Section(step)[1]), Section(step)[2]);
  }

  lemma SectionSaved(c: Cluster, w: World, step: Step)
    requires Shows(c, w)
    ensures Shows(OccurAll(c, Section(step)), Do(w, step))
  {
    hide Do, Perform;
    var d := Acts(c, w, step);
    var hs := Section(step);
    OccurFive(c, hs[0], hs[1], hs[2], hs[3], hs[4]);
  }

  lemma SectionFailed(c: Cluster, w: World, step: Step)
    requires Shows(c, w)
    ensures Shows(OccurAll(c, Failing(step)), w.(flags := Do(w, step).flags))
  {
    hide Do, Perform;
    var d := Acts(c, w, step);
    var hs := Failing(step);
    OccurFive(c, hs[0], hs[1], hs[2], hs[3], hs[4]);
  }

  lemma {:induction false} OccurJoin(c: Cluster, first: seq<Happening>, second: seq<Happening>)
    ensures OccurAll(c, first + second) == OccurAll(OccurAll(c, first), second)
    decreases |first|
  {
    hide Occur;
    if first == [] {
      assert [] + second == second;
    } else {
      assert (first + second)[1..] == first[1..] + second;
      OccurJoin(Occur(c, first[0]), first[1..], second);
    }
  }

  /** Both players join; A's order raises its flag and is not saved; B orders all its units. */
  function UnsavedOrder(): seq<Happening> {
    Section(Join("p")) + Section(Join("q")) + Failing(Move("x", A, MoveCommand(1, 2, 3)))
    + Section(Move("x", B, MoveCommand(5, 4, 3)))
  }

  /** On a single server, too, a round can resolve early without cause: an order that fails after it
      has raised its side's flag leaves the flag up and reserves nothing. */
  lemma UnsavedFlagResolvesEarly()
    ensures var end := OccurAll(Opening("x"), UnsavedOrder());
            && end.sys.store.room.used.a == 0 && NodeMobile(end.sys.store.room.nodes, A) == 3
            && end.sys.store.room.round == 1 && end.sys.store.completed == []
            && OccurAll(end, Section(Check("x"))).sys.store.completed == [1]
  {
    hide Do, Run, Start, Section, Failing, OccurAll, NodeMobile, Scenarios.Fresh, Scenarios.AllLeaving, Scenarios.Deceived,
      RoadRounds.Scene;
    var c0, w0 := Opening("x"), Start("x");
    OpeningShows("x");
    SectionSaved(c0, w0, Join("p"));
    var c1 := OccurAll(c0, Section(Join("p")));
    SectionSaved(c1, Do(w0, Join("p")), Join("q"));
    var c2 := OccurAll(c1, Section(Join("q")));
    RoadRounds.RunTwo(w0, Join("p"), Join("q"));
    var w2 := Run(w0, RoadRounds.BothJoined());
    Scenarios.OpeningFresh("x");
    Scenarios.AllSent(w2);
    var order := Move("x", A, MoveCommand(1, 2, 3));
    SectionFailed(c2, w2, order);
    var c3 := OccurAll(c2, Failing(order));
    var w3 := w2.(flags := Do(w2, order).flags);
    FlagRaised(w2);
    Scenarios.FreshDeceived(w2, w3.flags);
    Scenarios.DeceivedChecks(w3, 0);
    SectionSaved(c3, w3, Move("x", B, MoveCommand(5, 4, 3)));
    var c4 := OccurAll(c3, Section(Move("x", B, MoveCommand(5, 4, 3))));
    SectionSaved(c4, Do(w3, Move("x", B, MoveCommand(5, 4, 3))), Check("x"));
    OccurJoin(c0, Section(Join("p")), Section(Join("q")));
    OccurJoin(c0, Section(Join("p")) + Section(Join("q")), Failing(order));
    OccurJoin(c0, Section(Join("p")) + Section(Join("q")) + Failing(order), Section(Move("x", B, MoveCommand(5, 4, 3))));
  }

  lemma OpeningShows(owner: ServerId)
    ensures Shows(Opening(owner), Start(owner))
  {
  }

  lemma FlagRaised(w: World)
    requires Scenarios.Fresh(w) && w.flags == map[] && w.completed == []
    ensures FlagsOf(Do(w, Move("x", A, MoveCommand(1, 2, 3))).flags, "x") == PerSide(true, false)
    ensures w.room.round == 1
  {
    hide Do, RoadRounds.Scene;
    Scenarios.AllSent(w);
  }
}
