/** Why "no answer is taken back" is a statement about sequential runs. With several goroutines it holds
    exactly while none of them is poised to answer from a list it fetched early; and two goroutines, one
    of them so poised, make an answer reverse. */
module Race {
  import opened Machine
  import opened Quorum
  import opened World
  import opened Lookups
  import opened Micro
  import opened Search
  import opened Bracketing
  import opened Runs
  import opened Regression
  import opened Concurrent

  // ----- exactly when -----

  /** Whatever happens from here on, no probe of `h` answers "not finalized". */
  ghost predicate NeverDenied(w: World, sys: System, h: Height) {
    forall events: seq<Event>, i: nat ::
      |sys.shared.log| <= i < |Exec(w, sys, events).shared.log|
      ==> Exec(w, sys, events).shared.log[i] != Probe(h, Ok(false))
  }

  /** A poised goroutine needs one move or two to give its answer. */
  lemma {:induction false} PoisedDenies(w: World, sys: System, id: nat, h: Height) returns (events: seq<Event>)
    requires id in sys.tasks && Poised(sys.tasks[id], h)
    ensures Exec(w, sys, events).shared.log == sys.shared.log + [Probe(h, Ok(false))]
    decreases Left(sys.tasks[id].micro)
  {
    hide Exec, Resume, Insert, Decides;
    var sys1 := React(w, sys, Move(id));
    ExecNone(w, sys1);
    ExecFirst(w, sys, Move(id), []);
    assert [Move(id)] + [] == [Move(id)];
    events := [Move(id)];
    if !sys.tasks[id].micro.Answered? {
      assert sys1.tasks[id].micro == Answered(Ok(false));
      events := PoisedDenies(w, sys1, id, h);
      ExecFirst(w, sys, Move(id), events);
      events := [Move(id)] + events;
    }
  }

  /** A finalized height whose list is not stale, at any moment of any run: it will never again be
      answered "not finalized" if and only if no goroutine is poised to do so now. */
  lemma DeniedExactlyWhenPoised(w: World, sys: System, h: Height, since: nat)
    requires Settled(w) && AnswersOk(w, sys, iset{}, since)
    requires Finalized(w, sys.shared.clock, h) && !Stale(w, sys.shared, h)
    ensures NeverDenied(w, sys, h) <==> NonePoised(sys, h)
  {
    hide Settled, AnswersOk, Exec, Poised, Finalized, Stale;
    if NonePoised(sys, h) {
      Reopened(w, sys, since, iset{h});
      forall events: seq<Event>, i: nat | |sys.shared.log| <= i < |Exec(w, sys, events).shared.log|
        ensures Exec(w, sys, events).shared.log[i] != Probe(h, Ok(false))
      {
        AnswersKept(w, sys, events, iset{h}, |sys.shared.log|);
        LoggedYes(w, Exec(w, sys, events), h, |sys.shared.log|, i);
      }
    } else {
      var id :| id in sys.tasks && Poised(sys.tasks[id], h);
      var events := PoisedDenies(w, sys, id, h);
      assert Exec(w, sys, events).shared.log[|sys.shared.log|] == Probe(h, Ok(false));
    }
  }

  lemma LoggedYes(w: World, sys: System, h: Height, since: nat, i: nat)
    requires AnswersOk(w, sys, iset{h}, since) && since <= i < |sys.shared.log|
    ensures sys.shared.log[i] != Probe(h, Ok(false))
  {
    hide Inv, TaskHolds, Finalized;
  }

  /** So for every answer "finalized" of every run from the start of the process: while the list of its
      height is not stale, it can be taken back if and only if a goroutine is poised to. */
  lemma TakenBackExactly(w: World, events: seq<Event>, h: Height)
    requires Settled(w)
    requires
      var s := Exec(w, FRESH, events).shared;
      Probe(h, Ok(true)) in s.log && !Stale(w, s, h)
    ensures
      var sys := Exec(w, FRESH, events);
      NeverDenied(w, sys, h) <==> NonePoised(sys, h)
  {
    hide Settled, AnswersOk, Exec, Finalized, Stale, NeverDenied, NonePoised;
    FreshOk(w, iset{});
    AnswersKept(w, FRESH, events, iset{}, 0);
    FinalizedAnswersTrue(w, events, Probe(h, Ok(true)));
    DeniedExactlyWhenPoised(w, Exec(w, FRESH, events), h, 0);
  }

  // ----- two goroutines -----

  /** As in `Regression`, with the head resting at 5. */
  const RACE: World := SCRIPT.(heads := (t: nat) => 5)

  lemma RaceIsHonest()
    ensures Settled(RACE) && DownwardClosed(RACE) && AllUp(RACE)
    ensures forall t: nat :: UpFrom(RACE, t)
  {
    ScriptIsHonest();
    RaceClosed();
  }

  lemma RaceFinality(t: nat, h: Height)
    ensures Finalized(RACE, t, h) <==> t >= 1000 && h <= 5
  {
    OnePower();
  }

  lemma RaceClosed()
    ensures DownwardClosed(RACE)
  {
    forall t: nat, g: Height, h: Height | 1 <= g <= h && Finalized(RACE, t, h)
      ensures Finalized(RACE, t, g)
    {
      RaceFinality(t, g);
      RaceFinality(t, h);
    }
  }

  // ----- a goroutine on its way to the vote list -----

  ghost predicate OnItsWay(w: World, s: State, h: Height, m: Micro) {
    && Inv(w, s, iset{}) && Holds(w, s.clock, h, m, iset{})
    && h !in s.finalized && Block(w, h).hash !in s.votes
    && Left(m) >= 3
  }

  lemma WayStep(w: World, s: State, h: Height, m: Micro)
    requires UpFrom(w, s.clock) && Holds(w, s.clock, h, m, iset{}) && Total(PowerAt(w, h)) % MOD != 0
    requires h !in s.finalized && Block(w, h).hash !in s.votes && Left(m) >= 3
    requires BtcAt(w, h) in s.power ==> s.power[BtcAt(w, h)] == PowerAt(w, h)
    ensures
      var (s', m') := Step(w, s, h, m);
      && s'.votes == s.votes && s'.finalized == s.finalized && s'.clock <= s.clock + 1
      && (m'.WriteVotes? || Left(m') >= 3)
  {
    hide Total, Insert, FpsCached, PowerAt, Block, BtcAt;
  }

  lemma CachedPower(w: World, s: State, h: Height)
    requires Inv(w, s, iset{})
    ensures BtcAt(w, h) in s.power ==> s.power[BtcAt(w, h)] == PowerAt(w, h)
  {
  }

  /** Uninterrupted, it comes to hold a fetched list it has not stored yet. */
  lemma {:induction false} HoldsList(w: World, sys: System, id: nat, h: Height) returns (events: seq<Event>)
    requires Settled(w) && UpFrom(w, sys.shared.clock) && Total(PowerAt(w, h)) % MOD != 0
    requires id in sys.tasks && Asking(sys.tasks[id].ctl) && Target(sys.tasks[id].ctl) == h
    requires OnItsWay(w, sys.shared, h, sys.tasks[id].micro)
    ensures
      var (task, sys') := (sys.tasks[id], Exec(w, sys, events));
      && sys'.tasks.Keys == sys.tasks.Keys && sys'.tasks[id].micro.WriteVotes?
      && sys'.tasks[id] == task.(micro := sys'.tasks[id].micro)
      && Inv(w, sys'.shared, iset{}) && Holds(w, sys'.shared.clock, h, sys'.tasks[id].micro, iset{})
      && sys'.shared.votes == sys.shared.votes && sys'.shared.finalized == sys.shared.finalized
      && sys'.shared.last == sys.shared.last && sys'.shared.log == sys.shared.log
      && sys'.shared.clock <= sys.shared.clock + Left(task.micro)
    decreases Left(sys.tasks[id].micro)
  {
    hide Settled, UpFrom, Inv, Holds, Step, Exec, Total, PowerAt, Block, Glide, Resume;
    var (task, s) := (sys.tasks[id], sys.shared);
    CachedPower(w, s, h);
    WayStep(w, s, h, task.micro);
    StepSafe(w, s, h, task.micro, iset{});
    StepFrame(w, s, h, task.micro);
    StepShrinks(w, s, h, task.micro);
    UpLater(w, s.clock, Step(w, s, h, task.micro).0.clock);
    var sys1 := React(w, sys, Move(id));
    if sys1.tasks[id].micro.WriteVotes? {
      events := [Move(id)];
      ExecFirst(w, sys, Move(id), []);
      ExecNone(w, sys1);
      assert [Move(id)] + [] == [Move(id)];
    } else {
      events := HoldsList(w, sys1, id, h);
      ExecFirst(w, sys, Move(id), events);
      events := [Move(id)] + events;
    }
  }

  // ----- the interleaving -----

  ghost predicate Paused(sys: System) {
    && Inv(RACE, sys.shared, iset{}) && sys.shared.last == 0 && sys.shared.log == []
    && sys.shared.finalized == map[] && sys.shared.votes == map[]
    && sys.tasks.Keys == {0}
    && sys.tasks[0].ctl == Top(5, 1)
    && sys.tasks[0].micro.WriteVotes? && sys.tasks[0].micro.q == Block(RACE, 4)
    && !Decides(sys.tasks[0].micro.power, sys.tasks[0].micro.list)
  }

  lemma StartTask() returns (events: seq<Event>)
    ensures
      var sys := Exec(RACE, FRESH, events);
      && sys.shared == Tick(INITIAL) && sys.tasks.Keys == {0}
      && sys.tasks[0].ctl == Top(5, 1) && sys.tasks[0].micro == ReadFinal
  {
    hide Exec;
    events := [Spawn(0), Move(0), Move(0)];
    var (a, b, c) := (Spawn(0), Move(0), Move(0));
    var s1 := React(RACE, FRESH, a);
    var s2 := React(RACE, s1, b);
    var s3 := React(RACE, s2, c);
    assert events == [a] + ([b] + ([c] + []));
    ExecFirst(RACE, FRESH, a, [b] + ([c] + []));
    ExecFirst(RACE, s1, b, [c] + []);
    ExecFirst(RACE, s2, c, []);
    ExecNone(RACE, s3);
  }

  /** Before anybody votes, the first search fetches the empty list of height 4 and is paused. */
  lemma PauseFirst() returns (events: seq<Event>)
    ensures var sys := Exec(RACE, FRESH, events); Paused(sys) && sys.shared.clock < 1000
  {
    hide Exec, Settled, UpFrom, DownwardClosed, Inv, RACE, Block, PowerAt;
    RaceIsHonest();
    RacePower();
    var start := StartTask();
    var sys := Exec(RACE, FRESH, start);
    RaceInitial();
    var rest := HoldsList(RACE, sys, 0, 4);
    events := start + rest;
    ExecConcat(RACE, FRESH, start, rest);
    var sys' := Exec(RACE, sys, rest);
    RaceFinality(sys'.shared.clock, 4);
    HeldList(sys'.shared.clock, sys'.tasks[0].micro);
  }

  lemma RacePower()
    ensures Total(PowerAt(RACE, 4)) % MOD != 0
  {
    OnePower();
  }

  lemma RaceInitial()
    ensures OnItsWay(RACE, Tick(INITIAL), 4, ReadFinal)
  {
  }

  lemma HeldList(t: nat, m: Micro)
    requires m.WriteVotes? && Holds(RACE, t, 4, m, iset{}) && !Finalized(RACE, t, 4)
    ensures m.q == Block(RACE, 4) && !Decides(m.power, m.list)
  {
    hide RACE, Settled;
    RaceIsHonest();
    OlderListIsSound(RACE, 4, m.list, t);
  }

  /** The votes arrive; a second search, uninterrupted, answers that 4 is finalized. */
  lemma RunSecond(sys: System) returns (events: seq<Event>)
    requires Paused(sys) && sys.shared.clock < 1000
    ensures
      var sys' := Exec(RACE, sys, events);
      && 0 in sys'.tasks && sys'.tasks[0] == sys.tasks[0]
      && sys'.shared.log == [Probe(4, Ok(true))]
  {
    hide Exec, Settled, UpFrom, Inv, RACE, Run, ByNumber, Finalized;
    var wait := 1000 - sys.shared.clock;
    var sys1 := React(RACE, sys, Elapse(wait));
    var sys2 := React(RACE, sys1, Spawn(1));
    var solo := SoloRun(RACE, sys2, 1);
    events := [Elapse(wait)] + ([Spawn(1)] + solo);
    ExecFirst(RACE, sys, Elapse(wait), [Spawn(1)] + solo);
    ExecFirst(RACE, sys1, Spawn(1), solo);
    RaceIsHonest();
    TimePasses(RACE, sys.shared, 1000, iset{});
    SecondLog(sys1.shared);
  }

  lemma SecondLog(s: State)
    requires Inv(RACE, s, iset{}) && s.clock == 1000 && s.last == 0 && s.log == [] && s.votes == map[]
    ensures Run(RACE, s, Begin).0.log == [Probe(4, Ok(true))]
  {
    hide Settled, UpFrom, Inv, RACE, Run, ByNumber, Finalized, Block, Passes;
    RaceIsHonest();
    RaceHead(1000);
    QueryUnfold(RACE, s);
    TickInv(RACE, s);
    RaceFinality(1001, 4);
    EmptyKnown(Tick(s));
    UpAnswers(RACE, Tick(s), 4);
    ProbeSound(RACE, Tick(s), 4, iset{4});
    ProbeFrame(RACE, Tick(s), 4);
    RunAsk(RACE, Tick(s), Top(5, 1));
    RunDone(RACE, ByNumber(RACE, Tick(s), 4).0, Ok(4));
  }

  lemma RaceHead(t: nat)
    ensures RACE.heads(t) == 5 && !RACE.down(t, HeadCall)
  {
  }

  lemma EmptyKnown(s: State)
    requires Inv(RACE, s, iset{}) && s.votes == map[] && Finalized(RACE, s.clock, 4)
    ensures Inv(RACE, s, iset{4})
  {
  }

  /** The first search stores its old list and answers from it. */
  lemma FinishFirst(sys: System, first: Task)
    requires 0 in sys.tasks && sys.tasks[0] == first
    requires first.ctl == Top(5, 1) && first.micro.WriteVotes? && !Decides(first.micro.power, first.micro.list)
    ensures Exec(RACE, sys, [Move(0), Move(0)]).shared.log == sys.shared.log + [Probe(4, Ok(false))]
  {
    hide Exec, RACE, Resume, Insert, Decides;
    var sys1 := React(RACE, sys, Move(0));
    assert sys1.tasks[0].micro == Answered(Ok(false));
    var sys2 := React(RACE, sys1, Move(0));
    assert [Move(0), Move(0)] == [Move(0)] + ([Move(0)] + []);
    ExecFirst(RACE, sys, Move(0), [Move(0)] + []);
    ExecFirst(RACE, sys1, Move(0), []);
    ExecNone(RACE, sys2);
  }

  /** Error-free, votes only growing, and yet "finalized" for height 4 is followed by "not finalized". */
  lemma AnswersReverse() returns (events: seq<Event>)
    ensures Settled(RACE) && DownwardClosed(RACE) && AllUp(RACE)
    ensures Exec(RACE, FRESH, events).shared.log == [Probe(4, Ok(true)), Probe(4, Ok(false))]
    ensures !NoReversal(Exec(RACE, FRESH, events).shared.log)
  {
    hide Exec, RACE, Settled, UpFrom, DownwardClosed;
    RaceIsHonest();
    var one := PauseFirst();
    var sys1 := Exec(RACE, FRESH, one);
    var two := RunSecond(sys1);
    var sys2 := Exec(RACE, sys1, two);
    FinishFirst(sys2, sys1.tasks[0]);
    events := one + two + [Move(0), Move(0)];
    ExecConcat(RACE, FRESH, one + two, [Move(0), Move(0)]);
    ExecConcat(RACE, FRESH, one, two);
    var log := Exec(RACE, FRESH, events).shared.log;
    assert log == [Probe(4, Ok(true)), Probe(4, Ok(false))];
    assert log[0].answer == Ok(true) && log[0].height == log[1].height;
  }
}
