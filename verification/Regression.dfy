/** A concrete run in which the reported finalized height falls from 5 back to 1, although the votes
    only grow, nothing fails, and heights 1 to 5 have become finalized: the vote cache kept short lists. */
module Regression {
  import opened Machine
  import opened Quorum
  import opened World
  import opened Lookups
  import opened Micro
  import opened Search
  import opened Bracketing
  import opened Refinement
  import opened Runs

  const ONE_POWER: PowerMap := map["f" := 1]

  /** One provider. From tick 1000 on it has voted for every height up to 5. The head is 5, 6, then 7. */
  const SCRIPT: World := World(
    (t: nat) => if t < 1000 then 5 else if t < 2000 then 6 else 7,
    (t: nat, h: Height) => Header("0x" + Name(h), 0, h),
    (t: nat) => ["f"],
    (t: nat, time: U64) => 0,
    (t: nat, pks: seq<FpKey>, btc: U32) => ONE_POWER,
    (t: nat, q: QueryBlock) => if t < 1000 || q.height > 5 then Voters([]) else Voters(["f"]),
    (t: nat) => 0,
    (t: nat, call: Fault) => false)

  lemma OnePower()
    ensures Total(ONE_POWER) == 1
    ensures !Decides(ONE_POWER, Voters([])) && Decides(ONE_POWER, Voters(["f"]))
  {
    WeightPick(ONE_POWER, ONE_POWER.Keys, "f");
    assert ONE_POWER.Keys - {"f"} == {};
    assert ["f"][..0] == [];
    assert Tally(ONE_POWER, ["f"]) == 1;
  }

  lemma NamesDiffer(g: Height, h: Height)
    requires "0x" + Name(g) == "0x" + Name(h)
    ensures g == h
  {
    assert |"0x" + Name(g)| == 2 + g && |"0x" + Name(h)| == 2 + h;
  }

  lemma ScriptIsHonest()
    ensures Settled(SCRIPT) && AllUp(SCRIPT)
    ensures forall t: nat :: UpFrom(SCRIPT, t)
  {
    OnePower();
    forall g: Height, h: Height | SCRIPT.headers(0, g).hash == SCRIPT.headers(0, h).hash ensures g == h {
      NamesDiffer(g, h);
    }
  }

  lemma ScriptFinality(t: nat, h: Height)
    ensures Finalized(SCRIPT, t, h) <==> t >= 1000 && h <= 5
  {
    OnePower();
  }

  lemma ScriptClosed()
    ensures DownwardClosed(SCRIPT)
  {
    forall t: nat, g: Height, h: Height | 1 <= g <= h && Finalized(SCRIPT, t, h)
      ensures Finalized(SCRIPT, t, g)
    {
      ScriptFinality(t, g);
      ScriptFinality(t, h);
    }
  }

  // ----- small facts about any probe -----

  lemma {:induction false} AloneTicks(w: World, s: State, h: Height, m: Micro)
    ensures Alone(w, s, h, m).0.clock <= s.clock + Left(m)
    decreases Left(m)
  {
    hide Decides, Total, Insert, FpsCached;
    if !m.Answered? {
      var (s1, m1) := Step(w, s, h, m);
      StepShrinks(w, s, h, m);
      AloneTicks(w, s1, h, m1);
    }
  }

  lemma ProbeTicks(w: World, s: State, h: Height)
    ensures ByNumber(w, s, h).0.clock <= s.clock + 18
  {
    hide Alone, Answer;
    AloneIsAnswer(w, s, h);
    AloneTicks(w, s, h, ReadFinal);
  }

  // ----- the run -----

  /** At most `n` lists are cached, and no height but 5 was ever answered "finalized". */
  ghost predicate Scripted(s: State, n: nat) {
    && Inv(SCRIPT, s, iset{})
    && |s.votes| <= n
    && (forall h: Height :: h in s.finalized ==> h == 5)
  }

  ghost predicate Unseen(s: State) {
    Block(SCRIPT, 5).hash !in s.votes
  }

  lemma No(s: State, h: Height, n: nat)
    requires Scripted(s, n) && n < 100 && h != 5 && (s.clock < 900 || h > 5 || Stuck(SCRIPT, s, h))
    ensures
      var (s', answer) := ByNumber(SCRIPT, s, h);
      && answer == Ok(false)
      && Scripted(s', n + 1) && Stuck(SCRIPT, s', h)
      && s.clock <= s'.clock <= s.clock + 18 && s'.last == s.last
      && (Unseen(s) ==> Unseen(s'))
      && (forall g: Height :: Stuck(SCRIPT, s, g) ==> Stuck(SCRIPT, s', g))
  {
    hide ByNumber, Settled, UpFrom, Inv, Stuck, Finalized, Block, Passes, SCRIPT;
    ScriptIsHonest();
    var (s', answer) := ByNumber(SCRIPT, s, h);
    ProbeTicks(SCRIPT, s, h);
    ProbeFrame(SCRIPT, s, h);
    UpAnswers(SCRIPT, s, h);
    ProbeSound(SCRIPT, s, h, iset{});
    ScriptFinality(s'.clock, h);
    ProbeFills(SCRIPT, s, h);
    ProbeFinalized(SCRIPT, s, h);
    if Stuck(SCRIPT, s, h) {
      ProbeStuck(SCRIPT, s, h, h);
    }
    if Block(SCRIPT, h).hash == Block(SCRIPT, 5).hash {
      SettledChain();
      KeysDiffer(SCRIPT, h, 5);
    }
    forall g: Height | Stuck(SCRIPT, s, g) ensures Stuck(SCRIPT, s', g) {
      ProbeStuck(SCRIPT, s, g, h);
    }
    BecomesStuck(s', h);
    ProbeSize(SCRIPT, s, h);
  }

  lemma SettledChain()
    ensures OneChain(SCRIPT)
  {
    hide SCRIPT, OneChain;
    ScriptIsHonest();
  }

  lemma BecomesStuck(s: State, h: Height)
    requires Inv(SCRIPT, s, iset{}) && h != 5 && (forall g: Height :: g in s.finalized ==> g == 5)
    requires Block(SCRIPT, h).hash in s.votes && !Passes(SCRIPT, h, s.votes[Block(SCRIPT, h).hash])
    ensures Stuck(SCRIPT, s, h)
  {
  }

  ghost predicate AllStuck(s: State) {
    Stuck(SCRIPT, s, 2) && Stuck(SCRIPT, s, 3) && Stuck(SCRIPT, s, 4)
  }

  /** The midpoints of the two bisections. */
  lemma Halving()
    ensures Target(Bisect(1, 7)) == 4 && Resume(Bisect(1, 7), Ok(false)) == Bisect(1, 4)
    ensures Target(Bisect(1, 4)) == 3 && Resume(Bisect(1, 4), Ok(false)) == Bisect(1, 3)
    ensures Target(Bisect(1, 5)) == 3 && Resume(Bisect(1, 5), Ok(false)) == Bisect(1, 3)
    ensures Target(Bisect(1, 3)) == 2 && Resume(Bisect(1, 3), Ok(false)) == Commit(1, Done(Ok(1)))
  {
  }

  /** The bisection of the first search, which answers the floor. */
  lemma FirstBisection(s: State)
    requires Scripted(s, 2) && Unseen(s) && s.last == 0 && s.clock < 100
    requires Stuck(SCRIPT, s, 2) && Stuck(SCRIPT, s, 4)
    ensures
      var (s', result) := Run(SCRIPT, s, Bisect(1, 5));
      result == Ok(1) && s'.last == 1 && Scripted(s', 10) && AllStuck(s') && Unseen(s') && s'.clock < 900
  {
    hide ByNumber, Run, Stuck, Inv, SCRIPT, Resume, Target;
    Halving();
    No(s, 3, 2);
    var s3 := ByNumber(SCRIPT, s, 3).0;
    RunAsk(SCRIPT, s, Bisect(1, 5));
    No(s3, 2, 3);
    var s4 := ByNumber(SCRIPT, s3, 2).0;
    RunAsk(SCRIPT, s3, Bisect(1, 3));
    StoreFloor(s4);
  }

  lemma StoreFloor(s: State)
    requires Scripted(s, 10) && AllStuck(s) && s.last == 0
    ensures Run(SCRIPT, s, Commit(1, Done(Ok(1)))) == (SetLast(s, 1), Ok(1))
    ensures Scripted(SetLast(s, 1), 10) && AllStuck(SetLast(s, 1)) && SetLast(s, 1).last == 1
  {
    hide Run, Stuck, Inv, SCRIPT;
    RunCommit(SCRIPT, s, 1, Done(Ok(1)));
    RunDone(SCRIPT, SetLast(s, 1), Ok(1));
    StuckCommit(SCRIPT, s, 2, Commit(1, Done(Ok(1))));
    StuckCommit(SCRIPT, s, 3, Commit(1, Done(Ok(1))));
    StuckCommit(SCRIPT, s, 4, Commit(1, Done(Ok(1))));
    SetLastKeeps(SCRIPT, s, 1, iset{});
  }

  /** Head 5, nobody has voted: the search answers the floor, and caches three empty lists. */
  lemma FirstSearch()
    ensures
      var (s, result) := Query(SCRIPT, INITIAL);
      result == Ok(1) && s.last == 1 && Scripted(s, 10) && AllStuck(s) && Unseen(s) && s.clock < 900
  {
    hide ByNumber, Run, Stuck, Inv, SCRIPT, AllStuck;
    ScriptStart();
    QueryUnfold(SCRIPT, INITIAL);
    var s0 := Tick(INITIAL);
    No(s0, 4, 0);
    var s1 := ByNumber(SCRIPT, s0, 4).0;
    RunAsk(SCRIPT, s0, Top(5, 1));
    No(s1, 2, 1);
    var s2 := ByNumber(SCRIPT, s1, 2).0;
    RunAsk(SCRIPT, s1, Try(5, 1));
    FirstBisection(s2);
  }

  lemma ScriptStart()
    ensures !SCRIPT.down(0, HeadCall) && SCRIPT.heads(0) == 5 && Scripted(Tick(INITIAL), 0) && Unseen(Tick(INITIAL))
  {
  }

  lemma ScriptHead(t: nat)
    ensures !SCRIPT.down(t, HeadCall)
    ensures SCRIPT.heads(t) == if t < 1000 then 5 else if t < 2000 then 6 else 7
  {
  }

  lemma WaitScripted(s: State, ticks: nat, n: nat)
    requires Scripted(s, n)
    ensures Scripted(Wait(s, ticks), n)
    ensures AllStuck(s) ==> AllStuck(Wait(s, ticks))
    ensures Unseen(s) ==> Unseen(Wait(s, ticks))
  {
    ScriptIsHonest();
    hide SCRIPT, Finalized, Settled;
    TimePasses(SCRIPT, s, s.clock + ticks, iset{});
  }

  /** Head 6, heights up to 5 finalized: the first probe answers 5. */
  lemma SecondSearch(s: State)
    requires s.last == 1 && Scripted(s, 10) && AllStuck(s) && Unseen(s) && s.clock == 1000
    ensures
      var (s', result) := Query(SCRIPT, s);
      result == Ok(5) && s'.last == 1 && Scripted(s', 11) && AllStuck(s') && s'.clock < 1900
  {
    hide ByNumber, Run, Stuck, Inv, SCRIPT, Settled, UpFrom, Finalized, Block;
    ScriptIsHonest();
    ScriptHead(1000);
    QueryUnfold(SCRIPT, s);
    WaitScripted(s, 1, 10);
    var s0 := Tick(s);
    assert s0 == Wait(s, 1);
    ScriptFinality(1001, 5);
    FreshKnown(s0);
    UpAnswers(SCRIPT, s0, 5);
    ProbeSound(SCRIPT, s0, 5, iset{5});
    ProbeTicks(SCRIPT, s0, 5);
    ProbeFrame(SCRIPT, s0, 5);
    ProbeSize(SCRIPT, s0, 5);
    ProbeFinalized(SCRIPT, s0, 5);
    ProbeStuck(SCRIPT, s0, 2, 5);
    ProbeStuck(SCRIPT, s0, 3, 5);
    ProbeStuck(SCRIPT, s0, 4, 5);
    RunAsk(SCRIPT, s0, Top(6, 1));
    var s1 := ByNumber(SCRIPT, s0, 5).0;
    RunDone(SCRIPT, s1, Ok(5));
    InvWeakens(SCRIPT, s1, iset{5}, iset{});
  }

  lemma FreshKnown(s: State)
    requires Scripted(s, 10) && Unseen(s) && Finalized(SCRIPT, s.clock, 5)
    ensures Inv(SCRIPT, s, iset{5})
  {
  }

  lemma ThirdBisection(s: State)
    requires s.last == 1 && Scripted(s, 13) && AllStuck(s)
    ensures Run(SCRIPT, s, Bisect(1, 7)).1 == Ok(1)
  {
    hide ByNumber, Run, Stuck, Inv, SCRIPT, Resume, Target;
    Halving();
    No(s, 4, 13);
    var s3 := ByNumber(SCRIPT, s, 4).0;
    RunAsk(SCRIPT, s, Bisect(1, 7));
    No(s3, 3, 14);
    var s4 := ByNumber(SCRIPT, s3, 3).0;
    RunAsk(SCRIPT, s3, Bisect(1, 4));
    No(s4, 2, 15);
    var s5 := ByNumber(SCRIPT, s4, 2).0;
    RunAsk(SCRIPT, s4, Bisect(1, 3));
    RunCommit(SCRIPT, s5, 1, Done(Ok(1)));
    RunDone(SCRIPT, SetLast(s5, 1), Ok(1));
  }

  /** Head 7: every probe but the first meets a stale list, and the search answers 1. */
  lemma ThirdSearch(s: State)
    requires s.last == 1 && Scripted(s, 11) && AllStuck(s) && s.clock == 2000
    ensures Query(SCRIPT, s).1 == Ok(1)
  {
    hide ByNumber, Run, Stuck, Inv, SCRIPT;
    ScriptHead(2000);
    QueryUnfold(SCRIPT, s);
    WaitScripted(s, 1, 11);
    var s0 := Tick(s);
    assert s0 == Wait(s, 1);
    No(s0, 6, 11);
    var s1 := ByNumber(SCRIPT, s0, 6).0;
    RunAsk(SCRIPT, s0, Top(7, 1));
    No(s1, 2, 12);
    var s2 := ByNumber(SCRIPT, s1, 2).0;
    RunAsk(SCRIPT, s1, Try(7, 1));
    ThirdBisection(s2);
  }

  /** The results of one error-free sequential run with rising heads are 1, 5, 1, although heights up to
      5 are finalized from the second search on. */
  lemma ResultsFall() returns (gaps: seq<nat>)
    ensures Settled(SCRIPT) && DownwardClosed(SCRIPT) && AllUp(SCRIPT)
    ensures |gaps| == 3
    ensures forall k: nat :: k < 3 ==> Head(SCRIPT, INITIAL, gaps, k) == 5 + k
    ensures forall t: nat, h: Height :: Visit(SCRIPT, INITIAL, gaps, 1).clock <= t && h <= 5 ==> Finalized(SCRIPT, t, h)
    ensures Result(SCRIPT, INITIAL, gaps, 0) == Ok(1)
    ensures Result(SCRIPT, INITIAL, gaps, 1) == Ok(5)
    ensures Result(SCRIPT, INITIAL, gaps, 2) == Ok(1)
  {
    hide Query, Settled, SCRIPT, Stuck, Inv, Scripted, AllUp, DownwardClosed, Visit, Finalized;
    ScriptIsHonest();
    ScriptClosed();
    FirstSearch();
    var after1 := Query(SCRIPT, INITIAL).0;
    var gap1 := 1000 - after1.clock;
    WaitScripted(after1, gap1, 10);
    SecondSearch(Wait(after1, gap1));
    var after2 := Query(SCRIPT, Wait(after1, gap1)).0;
    var gap2 := 2000 - after2.clock;
    WaitScripted(after2, gap2, 11);
    ThirdSearch(Wait(after2, gap2));
    gaps := [0, gap1, gap2];
    VisitFirst(SCRIPT, INITIAL, gaps);
    assert Wait(INITIAL, 0) == INITIAL;
    VisitNext(SCRIPT, INITIAL, gaps, 0);
    VisitNext(SCRIPT, INITIAL, gaps, 1);
    ScriptHead(0);
    ScriptHead(1000);
    ScriptHead(2000);
    forall t: nat, h: Height | 1000 <= t && h <= 5 ensures Finalized(SCRIPT, t, h) {
      ScriptFinality(t, h);
    }
    forall k: nat | k < 3 ensures Head(SCRIPT, INITIAL, gaps, k) == 5 + k {
      if k == 0 {
      } else if k == 1 {
      }
    }
  }

  // ----- a swallowed error -----

  /** The head rests at 2, the one provider has always voted for everything, and only tick 1 is down. */
  const PATCHY: World := SCRIPT.(
    heads := (t: nat) => 2,
    votes := (t: nat, q: QueryBlock) => Voters(["f"]),
    down := (t: nat, call: Fault) => t == 1)

  lemma PatchyIsHonest()
    ensures Settled(PATCHY) && DownwardClosed(PATCHY) && Frozen(PATCHY, 0) && UpFrom(PATCHY, 2)
    ensures forall t: nat, h: Height :: Finalized(PATCHY, t, h)
    ensures forall t: nat :: PATCHY.heads(t) == 2
    ensures forall t: nat, call: Fault :: PATCHY.down(t, call) <==> t == 1
  {
    ScriptIsHonest();
    OnePower();
  }

  /** The first search: the error of the check of height 1 is swallowed, height 2 is answered and not
      stored. */
  lemma PatchyFirst()
    ensures
      var (s, result) := Query(PATCHY, INITIAL);
      result == Ok(2) && s.last == 0 && 2 <= s.clock
  {
    hide ByNumber, Run, Inv, Settled, DownwardClosed, Frozen, UpFrom, Finalized, PATCHY;
    PatchyIsHonest();
    QueryUnfold(PATCHY, INITIAL);
    var s0 := Tick(INITIAL);
    RunAsk(PATCHY, s0, Top(2, 1));
    FirstProbeErrs();
    var s1 := Record(Tick(s0), 1, Err(BlockCall));
    RunAsk(PATCHY, s1, Next(2, 1));
    EmptyKnows(s1);
    UpAnswers(PATCHY, s1, 2);
    ProbeSound(PATCHY, s1, 2, iset{2});
    ProbeFrame(PATCHY, s1, 2);
    RunDone(PATCHY, ByNumber(PATCHY, s1, 2).0, Ok(2));
  }

  lemma FirstProbeErrs()
    ensures ByNumber(PATCHY, Tick(INITIAL), 1) == (Record(Tick(Tick(INITIAL)), 1, Err(BlockCall)), Err(BlockCall))
  {
    PatchyIsHonest();
  }

  lemma EmptyKnows(s: State)
    requires s == Record(Tick(Tick(INITIAL)), 1, Err(BlockCall))
    ensures Inv(PATCHY, s, iset{2})
  {
    PatchyIsHonest();
  }

  /** The one way results fall without a stale list: one swallowed error, and two searches in a row
      answer 2 and then 1, at the same head, with every height finalized all along. */
  lemma SwallowedErrorFalls() returns (gaps: seq<nat>)
    ensures gaps == [0, 0]
    ensures Settled(PATCHY) && DownwardClosed(PATCHY) && Frozen(PATCHY, 0)
    ensures forall t: nat, call: Fault :: PATCHY.down(t, call) <==> t == 1
    ensures forall t: nat, h: Height :: Finalized(PATCHY, t, h)
    ensures Head(PATCHY, INITIAL, gaps, 0) == 2 && Head(PATCHY, INITIAL, gaps, 1) == 2
    ensures NoStale(PATCHY, Visit(PATCHY, INITIAL, gaps, 1))
    ensures Result(PATCHY, INITIAL, gaps, 0) == Ok(2) && Result(PATCHY, INITIAL, gaps, 1) == Ok(1)
  {
    hide Query, Settled, DownwardClosed, Frozen, UpFrom, Reached, Inv, Visit, Finalized, Stale, Linked, PATCHY;
    gaps := [0, 0];
    PatchyIsHonest();
    PatchyFirst();
    InitialReached(PATCHY);
    VisitFirst(PATCHY, INITIAL, gaps);
    VisitNext(PATCHY, INITIAL, gaps, 0);
    assert Wait(INITIAL, 0) == INITIAL;
    var two := Visit(PATCHY, INITIAL, gaps, 1);
    ReachedIsQuiet(PATCHY, INITIAL);
    FrozenStaysClear(PATCHY, INITIAL, 0);
    assert forall h: Height :: !Stale(PATCHY, INITIAL, h);
    assert forall h: Height :: !Stale(PATCHY, two, h);
    UpLater(PATCHY, 2, two.clock);
    EveryRunReached(PATCHY, INITIAL, gaps, 1);
    ReachedIsQuiet(PATCHY, two);
    HeadFalls(PATCHY, two);
  }
}
