/** Whole sequential runs: no probe answer is ever taken back, and when search results can fall. */
module Runs {
  import opened Machine
  import opened Quorum
  import opened World
  import opened Lookups
  import opened Micro
  import opened Search
  import opened Bracketing
  import opened Refinement

  // ----- no reversal -----

  /** Heights once answered "finalized". */
  ghost function Memory(log: seq<Probe>): iset<Height> {
    iset h: Height | Probe(h, Ok(true)) in log
  }

  ghost predicate NoReversal(log: seq<Probe>) {
    forall i, j ::
      0 <= i < j < |log| && log[i].answer == Ok(true) && log[i].height == log[j].height && log[j].answer.Ok?
      ==> log[j].answer.value
  }

  /** The history invariant that links the two caches: a cached list never contradicts an answer
      given before, and the finalized cache holds only answers given before. */
  ghost predicate Remembers(w: World, s: State) {
    && Inv(w, s, Memory(s.log))
    && (forall h: Height :: h in s.finalized ==> h in Memory(s.log))
    && NoReversal(s.log)
  }

  /** Between calls of any sequential run. */
  ghost predicate Reached(w: World, s: State) {
    Remembers(w, s) && StoredOk(w, s) && Bounded(s)
  }

  lemma ReachedIsQuiet(w: World, s: State)
    requires Reached(w, s)
    ensures Quiet(w, s) && Linked(w, s)
  {
  }

  lemma InitialReached(w: World)
    ensures Reached(w, INITIAL) && NoStale(w, INITIAL)
  {
  }

  lemma ProbeFinalized(w: World, s: State, g: Height)
    ensures
      var (s', answer) := ByNumber(w, s, g);
      forall h: Height :: h in s'.finalized ==> h in s.finalized || (h == g && answer == Ok(true))
  {
    hide Decides, Total, AllPkPower;
    if g !in s.finalized {
      var (s1, header) := BlockByNumber(w, s, g);
      if header.Ok? {
        JudgeKeepsFinalized(w, s1, Ask(header.value));
      }
    }
  }

  lemma JudgeKeepsFinalized(w: World, s: State, q: QueryBlock)
    ensures IsBlockFinalized(w, s, q).0.finalized == s.finalized
  {
    hide Decides, Total, AllPkPower;
    PowerKeepsVotes(w, s, q);
  }

  /** After a "finalized" answer the cached list, if any, is one that passes. */
  lemma JudgedListPasses(w: World, s: State, h: Height)
    requires Settled(w) && Coherent(w, s)
    ensures
      var (s', answer) := IsBlockFinalized(w, s, Block(w, h));
      answer == Ok(true) && Block(w, h).hash in s'.votes ==> Passes(w, h, s'.votes[Block(w, h).hash])
  {
    hide Decides, Total, AllPkPower, Settled, Coherent, Block, PowerAt;
    TruePower(w, s, h);
    var (s1, power) := AllPkPower(w, s, Block(w, h));
    if power.Ok? && Block(w, h).hash in s1.votes {
      TotalZeroPasses(PowerAt(w, h), s1.votes[Block(w, h).hash]);
    }
  }

  lemma AnsweredListPasses(w: World, s: State, h: Height)
    requires Settled(w) && Inv(w, s, iset{}) && h !in s.finalized
    ensures
      var (s', answer) := ByNumber(w, s, h);
      answer == Ok(true) && Block(w, h).hash in s'.votes ==> Passes(w, h, s'.votes[Block(w, h).hash])
  {
    hide Passes, IsBlockFinalized, BlockByNumber, Settled, Inv, Coherent, Block;
    TrueBlock(w, s, h);
    AskIsBlock(w, h);
    JudgedListPasses(w, BlockByNumber(w, s, h).0, h);
  }

  lemma RecordKeeps(w: World, s: State, s': State, h: Height, answer: Outcome<bool>)
    requires Remembers(w, s)
    requires Inv(w, s', Memory(s.log)) && s'.log == s.log + [Probe(h, answer)]
    requires Sound(w, s'.clock, h, answer, Memory(s.log))
    requires answer == Ok(true) && Block(w, h).hash in s'.votes ==> Passes(w, h, s'.votes[Block(w, h).hash])
    requires forall g: Height :: g in s'.finalized ==> g in s.finalized || (g == h && answer == Ok(true))
    ensures Remembers(w, s')
  {
    hide Coherent, Passes, Finalized, Block;
    var p := Probe(h, answer);
    assert forall x: Probe :: x in s'.log <==> x in s.log || x == p;
    forall i, j
      | 0 <= i < j < |s'.log| && s'.log[i].answer == Ok(true) && s'.log[i].height == s'.log[j].height
        && s'.log[j].answer.Ok?
      ensures s'.log[j].answer.value
    {
      assert s'.log[i] == s.log[i];
      if j == |s.log| {
        assert Probe(h, Ok(true)) in s.log;
      }
    }
  }

  lemma ProbeRemembers(w: World, s: State, h: Height)
    requires Settled(w) && Remembers(w, s)
    ensures Remembers(w, ByNumber(w, s, h).0)
  {
    hide Settled, ByNumber, Inv, Sound, Passes, Block, NoReversal;
    var (s', answer) := ByNumber(w, s, h);
    ProbeSound(w, s, h, Memory(s.log));
    ProbeFrame(w, s, h);
    ProbeFinalized(w, s, h);
    InvWeakens(w, s, Memory(s.log), iset{});
    if h in s.finalized {
      CachedYes(w, s, h);
    } else {
      AnsweredListPasses(w, s, h);
    }
    RecordKeeps(w, s, s', h, answer);
  }

  lemma InvWeakens(w: World, s: State, high: iset<Height>, low: iset<Height>)
    requires Inv(w, s, high) && low <= high
    ensures Inv(w, s, low)
  {
  }

  lemma CachedYes(w: World, s: State, h: Height)
    requires h in s.finalized && h in Memory(s.log) && Inv(w, s, Memory(s.log))
    ensures ByNumber(w, s, h) == (Record(s, h, Ok(true)), Ok(true))
    ensures Block(w, h).hash in s.votes ==> Passes(w, h, s.votes[Block(w, h).hash])
  {
  }

  lemma GlideRemembers(w: World, s: State, c: Ctl)
    requires Settled(w) && Remembers(w, s) && WellFormed(c)
    ensures Remembers(w, Glide(w, s, c).0)
  {
    hide Settled, Inv, Start, NoReversal;
    if c.Begin? {
      TimePasses(w, s, s.clock + 1, Memory(s.log));
    } else if c.Commit? {
      SetLastKeeps(w, s, c.height, Memory(s.log));
    }
  }

  lemma {:induction false} RunRemembers(w: World, s: State, c: Ctl)
    requires Settled(w) && Remembers(w, s) && WellFormed(c)
    ensures Remembers(w, Run(w, s, c).0)
    decreases Phase(c), Width(c), Depth(c)
  {
    hide Settled, Remembers, ByNumber, Resume, Glide;
    if !c.Done? {
      var (s1, c1) := Advance(w, s, c);
      if Asking(c) {
        ProbeRemembers(w, s, Target(c));
      } else {
        GlideRemembers(w, s, c);
      }
      RunRemembers(w, s1, c1);
    }
  }

  lemma QueryReached(w: World, s: State)
    requires Settled(w) && DownwardClosed(w) && Reached(w, s)
    ensures Reached(w, Query(w, s).0)
  {
    hide Settled, DownwardClosed, Remembers, Run, Bounded, StoredOk, Inv;
    RunRemembers(w, s, Begin);
    RunBounded(w, s, Begin);
    RememberedInv(w, s);
    QueryQuiet(w, s, Memory(s.log));
  }

  lemma RememberedInv(w: World, s: State)
    requires Remembers(w, s)
    ensures Inv(w, s, Memory(s.log))
  {
  }

  // ----- runs -----

  function Wait(s: State, ticks: nat): State {
    s.(clock := s.clock + ticks)
  }

  /** The state before the k-th search of a run that waits `gaps[k]` ticks before it. */
  ghost function Visit(w: World, s: State, gaps: seq<nat>, k: nat): State
    requires k < |gaps|
  {
    if k == 0 then Wait(s, gaps[0]) else Wait(Query(w, Visit(w, s, gaps, k - 1)).0, gaps[k])
  }

  ghost function Result(w: World, s: State, gaps: seq<nat>, k: nat): Outcome<Height>
    requires k < |gaps|
  {
    Query(w, Visit(w, s, gaps, k)).1
  }

  ghost function Head(w: World, s: State, gaps: seq<nat>, k: nat): Height
    requires k < |gaps|
  {
    w.heads(Visit(w, s, gaps, k).clock)
  }

  lemma WaitReached(w: World, s: State, ticks: nat)
    requires Settled(w) && Reached(w, s)
    ensures Reached(w, Wait(s, ticks))
  {
    hide Settled, Remembers, Finalized;
    WaitRemembers(w, s, ticks);
    FinalityPersists(w, s.clock, s.clock + ticks, s.last);
    WaitBounded(s, ticks);
  }

  lemma WaitBounded(s: State, ticks: nat)
    requires Bounded(s)
    ensures Bounded(Wait(s, ticks))
  {
  }

  /** Every state of every sequential run, errors included: caches coherent and bounded, stored height
      finalized or the floor, and no answer ever reversed, through any number of flushes. */
  lemma {:induction false} EveryRunReached(w: World, s: State, gaps: seq<nat>, k: nat)
    requires Settled(w) && DownwardClosed(w) && Reached(w, s) && k < |gaps|
    ensures
      var before := Visit(w, s, gaps, k);
      var after := Query(w, before).0;
      && Reached(w, before) && Reached(w, after)
      && s.last <= before.last <= after.last && s.clock <= before.clock <= after.clock
  {
    hide Settled, DownwardClosed, Reached, Query, Inv, StoredOk;
    if k == 0 {
      WaitReached(w, s, gaps[0]);
    } else {
      EveryRunReached(w, s, gaps, k - 1);
      WaitReached(w, Query(w, Visit(w, s, gaps, k - 1)).0, gaps[k]);
    }
    var before := Visit(w, s, gaps, k);
    QueryReached(w, before);
    ReachedParts(w, before);
    QueryQuiet(w, before, Memory(before.log));
  }

  lemma ReachedParts(w: World, s: State)
    requires Reached(w, s)
    ensures Inv(w, s, Memory(s.log)) && StoredOk(w, s) && NoReversal(s.log)
  {
  }

  lemma WaitRemembers(w: World, s: State, ticks: nat)
    requires Settled(w) && Remembers(w, s)
    ensures Remembers(w, Wait(s, ticks))
  {
    hide Settled, Inv, NoReversal;
    TimePasses(w, s, s.clock + ticks, Memory(s.log));
  }

  lemma {:induction false} EveryRunRemembers(w: World, s: State, gaps: seq<nat>, k: nat)
    requires Settled(w) && Remembers(w, s) && k < |gaps|
    ensures Remembers(w, Query(w, Visit(w, s, gaps, k)).0)
  {
    hide Settled, Remembers, Run;
    if k == 0 {
      WaitRemembers(w, s, gaps[0]);
    } else {
      EveryRunRemembers(w, s, gaps, k - 1);
      WaitRemembers(w, Query(w, Visit(w, s, gaps, k - 1)).0, gaps[k]);
    }
    RunRemembers(w, Visit(w, s, gaps, k), Begin);
  }

  /** From the empty provider on, whatever the calls, waits, errors and flushes. */
  lemma NoAnswerTakenBack(w: World, gaps: seq<nat>, k: nat)
    requires Settled(w) && k < |gaps|
    ensures NoReversal(Query(w, Visit(w, INITIAL, gaps, k)).0.log)
  {
    hide Settled, Query;
    InitialReached(w);
    EveryRunRemembers(w, INITIAL, gaps, k);
  }

  // ----- do results ever fall? -----

  /** The stored height never passes the newest head seen. */
  lemma QueryLast(w: World, s: State)
    requires Settled(w) && Inv(w, s, iset{}) && From(s.last) <= w.heads(s.clock)
    ensures From(Query(w, s).0.last) <= w.heads(s.clock)
  {
    hide Run, Settled, Start, Inv;
    var head := w.heads(s.clock);
    if w.down(s.clock, HeadCall) {
      QueryHeadDown(w, s);
    } else {
      QueryUnfold(w, s);
      StartCovers(iset{}, head, s.last);
      TickInv(w, s);
      RunCovers(w, Tick(s), Start(head, s.last), iset{}, From(s.last), head);
    }
  }

  lemma TickInv(w: World, s: State)
    requires Settled(w) && Inv(w, s, iset{})
    ensures Inv(w, Tick(s), iset{})
  {
    hide Settled, Inv;
    TimePasses(w, s, s.clock + 1, iset{});
  }

  /** The one way a search with nothing stale in its way answers less than an earlier one did: the
      earlier result is the head itself, above the stored height, and the probe of the height below it
      tells the truth. */
  ghost predicate Slips(w: World, s: State, earlier: Height) {
    earlier == w.heads(s.clock) && From(s.last) < earlier && !Stale(w, s, earlier - 1)
  }

  /** With a list at head - 1 that goes on saying "not finalized" the search comes to ask the head. */
  lemma NextAnswers(w: World, s: State, head: Height)
    requires Settled(w) && UpFrom(w, s.clock) && From(s.last) + 1 == head
    requires Inv(w, s, iset{head}) && Stuck(w, s, head - 1)
    ensures Run(w, s, Start(head, s.last)).1 == Ok(head)
  {
    hide ByNumber, Run, Settled, Inv, Block, Passes, UpFrom;
    StaleAnswersNo(w, s, head - 1);
    ProbeSound(w, s, head - 1, iset{head});
    ProbeFrame(w, s, head - 1);
    RunAsk(w, s, Top(head, head - 1));
    var s1 := ByNumber(w, s, head - 1).0;
    UpLater(w, s.clock, s1.clock);
    UpAnswers(w, s1, head);
    ProbeSound(w, s1, head, iset{head});
    RunAsk(w, s1, Next(head, head - 1));
    RunDone(w, ByNumber(w, s1, head).0, Ok(head));
  }

  lemma StaleSticks(w: World, s: State, h: Height)
    requires Inv(w, Tick(s), iset{}) && Linked(w, s) && Stale(w, s, h)
    ensures Stuck(w, Tick(s), h)
  {
  }

  /** The earlier result was the head. */
  lemma HeadFalls(w: World, s: State)
    requires Settled(w) && DownwardClosed(w) && UpFrom(w, s.clock) && Quiet(w, s) && Linked(w, s)
    requires From(s.last) < w.heads(s.clock) && Finalized(w, s.clock, w.heads(s.clock))
    requires ClearTo(w, s, w.heads(s.clock))
    ensures
      var head := w.heads(s.clock);
      Query(w, s).1 == Ok(if Stale(w, s, head - 1) then head else head - 1)
  {
    hide Run, Settled, Start, Inv, Stale, StoredOk, Linked, Finalized, UpFrom;
    var head := w.heads(s.clock);
    var known: iset<Height> := iset h: Height | (h == head || h == head - 1) && !Stale(w, s, h);
    assert Finalized(w, s.clock, head - 1);
    UpLater(w, s.clock, Tick(s).clock);
    QuietKnows(w, s, known);
    HeadReadSafe(w, s, known);
    HeadReadSafe(w, s, iset{});
    QueryUnfold(w, s) by { assert !w.down(s.clock, HeadCall) by { UpNow(w, s.clock, HeadCall); } }
    if Stale(w, s, head - 1) {
      StaleSticks(w, s, head - 1);
      InvWeakens(w, Tick(s), known, iset{head});
      NextAnswers(w, Tick(s), head);
    } else {
      InvWeakens(w, Tick(s), known, iset{(head - 1) as Height});
      TopAnswers(w, Tick(s), head);
    }
  }

  lemma UpNow(w: World, t: nat, call: Fault)
    requires UpFrom(w, t)
    ensures !w.down(t, call)
  {
  }

  /** `earlier` was finalized at some tick before, or the floor, and no list is stale from the stored
      height up to it; no call fails from this search on, whatever failed before. */
  lemma FallsExactly(w: World, s: State, t: nat, earlier: Height)
    requires Settled(w) && DownwardClosed(w) && UpFrom(w, s.clock) && Quiet(w, s) && Linked(w, s)
    requires From(s.last) <= w.heads(s.clock)
    requires 1 <= earlier <= w.heads(s.clock) && t <= s.clock && Floor(w, t, earlier)
    requires ClearTo(w, s, earlier)
    ensures Query(w, s).1.Ok?
    ensures earlier <= Query(w, s).1.value <==> !Slips(w, s, earlier)
  {
    hide Query, Settled, DownwardClosed, UpFrom, Quiet, Linked, Finalized, Stale, ClearTo;
    UpQueries(w, s);
    QueryFinds(w, s);
    FinalityPersists(w, t, s.clock, earlier);
    if earlier == w.heads(s.clock) && From(s.last) < earlier {
      HeadFalls(w, s);
    } else if 1 < earlier < w.heads(s.clock) {
      assert Visible(w, s, earlier);
    }
  }

  lemma UpQueries(w: World, s: State)
    requires UpFrom(w, s.clock)
    ensures Query(w, s).1.Ok?
  {
    UpRuns(w, s, Begin);
  }

  /** Whole runs, whatever failed before the later search. With heads that do not fall and no list stale
      up to the earlier result, a result falls in exactly that one way; results never pass their head. */
  lemma RunFallsExactly(w: World, s: State, gaps: seq<nat>, k: nat)
    requires Settled(w) && DownwardClosed(w) && Reached(w, s) && k + 1 < |gaps|
    requires Result(w, s, gaps, k).Ok? && UpFrom(w, Visit(w, s, gaps, k + 1).clock)
    requires ClearTo(w, Visit(w, s, gaps, k + 1), Result(w, s, gaps, k).value)
    requires forall i: nat, j: nat :: i <= j < |gaps| ==> Head(w, s, gaps, i) <= Head(w, s, gaps, j)
    requires From(s.last) <= Head(w, s, gaps, 0)
    ensures Result(w, s, gaps, k + 1).Ok?
    ensures Result(w, s, gaps, k).value <= Head(w, s, gaps, k)
    ensures
      var (r, r') := (Result(w, s, gaps, k).value, Result(w, s, gaps, k + 1).value);
      r <= r' <==> !Slips(w, Visit(w, s, gaps, k + 1), r)
  {
    hide Query, Settled, DownwardClosed, UpFrom, Reached, Quiet, Linked, ClearTo, StoredOk;
    hide Visit, Slips, Visible, Floor;
    var one, two := Visit(w, s, gaps, k), Visit(w, s, gaps, k + 1);
    RunStartsBelowHead(w, s, gaps, k + 1);
    RunStartsBelowHead(w, s, gaps, k);
    EveryRunReached(w, s, gaps, k);
    EveryRunReached(w, s, gaps, k + 1);
    ReachedIsQuiet(w, one);
    ReachedIsQuiet(w, two);
    QueryFinds(w, one);
    var (after, result) := Query(w, one);
    VisitNext(w, s, gaps, k);
    assert Head(w, s, gaps, k) <= Head(w, s, gaps, k + 1);
    FallsExactly(w, two, after.clock, result.value);
  }

  // ----- while no flush and no error comes between, results never fall -----

  /** From here on the search can only end by storing what it answers. */
  ghost predicate WillStore(c: Ctl, last: Height) {
    match c
    case Begin | GotHead(_) | Top(_, _) | Next(_, _) => false
    case Jump(head, from) => from + 1 < head
    case Try(_, _) | Bisect(_, _) => true
    case Commit(height, rest) => WillStore(rest, if last < height then height else last)
    case Done(result) => result.Ok? ==> result.value <= last
  }

  lemma SplitStores(from: Height, to: Height, last: Height)
    ensures WillStore(Split(from, to), last)
  {
  }

  lemma ResumeStores(c: Ctl, answer: Outcome<bool>, last: Height)
    requires Asking(c) && WellFormed(c) && WillStore(c, last)
    ensures WillStore(Resume(c, answer), last)
  {
    hide Split;
    match c
    case Jump(head, from) =>
    case Try(head, from) =>
      SplitStores(from, head, last);
      SplitStores(from + 1, head, last);
    case Bisect(from, to) =>
      MidHalves(from, to);
      var check := Mid(from, to);
      SplitStores(from, check, last);
      SplitStores(check, to, if last < check - 1 then check - 1 else last);
  }

  lemma {:induction false} RunStores(w: World, s: State, c: Ctl)
    requires WellFormed(c) && WillStore(c, s.last)
    ensures var (s', result) := Run(w, s, c); result.Ok? ==> result.value <= s'.last
    decreases Phase(c), Width(c), Depth(c)
  {
    hide ByNumber, Resume, Run;
    if c.Done? {
      RunDone(w, s, c.result);
    } else {
      if Asking(c) {
        ProbeFrame(w, s, Target(c));
        ResumeStores(c, ByNumber(w, s, Target(c)).1, s.last);
        RunAsk(w, s, c);
      } else {
        RunCommit(w, s, c.height, c.rest);
      }
      var (s1, c1) := Advance(w, s, c);
      RunStores(w, s1, c1);
    }
  }

  lemma NoLeavesList(w: World, s: State, h: Height)
    requires Settled(w) && Inv(w, s, iset{}) && ByNumber(w, s, h).1 == Ok(false)
    ensures Stuck(w, ByNumber(w, s, h).0, h)
  {
    hide Settled, Inv, Block, Passes, Answer;
    ProbeSound(w, s, h, iset{});
    ProbeFills(w, s, h);
    ProbeFinalized(w, s, h);
    if h in s.finalized {
      CachedAnswer(w, s, h);
    }
  }

  lemma CachedAnswer(w: World, s: State, h: Height)
    requires h in s.finalized
    ensures ByNumber(w, s, h).1 == Ok(true)
  {
  }

  /** A search that answers its head without storing it has heard "not finalized" for the height below,
      and unless the vote cache was full that height's list is still there. */
  lemma HeadAnswerLeavesList(w: World, s: State)
    requires Settled(w) && UpFrom(w, s.clock) && Quiet(w, s) && |s.votes| < CACHE_MAP_COUNT
    requires From(s.last) <= w.heads(s.clock)
    requires Query(w, s).1 == Ok(w.heads(s.clock)) && From(Query(w, s).0.last) < w.heads(s.clock)
    ensures Stuck(w, Query(w, s).0, w.heads(s.clock) - 1)
  {
    hide Run, ByNumber, Settled, Inv, UpFrom, Query, Stuck, StoredOk;
    var (head, s0) := (w.heads(s.clock), Tick(s));
    UpNow(w, s.clock, HeadCall);
    QueryUnfold(w, s);
    UpLater(w, s.clock, s0.clock);
    TickInv(w, s);
    if head == From(s.last) {
      RunDone(w, s0, Ok(head));
    } else {
      UpAnswers(w, s0, head - 1);
      RunAsk(w, s0, Top(head, From(s.last)));
      ProbeFrame(w, s0, head - 1);
      var (s1, answer) := ByNumber(w, s0, head - 1);
      UpLater(w, s0.clock, s1.clock);
      if answer.value {
        RunDone(w, s1, Ok(head - 1));
      } else if From(s.last) + 1 < head {
        RunStores(w, s1, AfterTop(head, From(s.last)));
      } else {
        NoLeavesList(w, s0, head - 1);
        ProbeSize(w, s0, head - 1);
        ProbeStuck(w, s1, head - 1, head);
        RunAsk(w, s1, Next(head, head - 1));
        UpAnswers(w, s1, head);
        var (s2, last) := ByNumber(w, s1, head);
        RunDone(w, s2, Ok(if last.value then head else head - 1));
      }
    }
  }

  /** A list that says "not finalized" is stale as soon as a height above it is finalized. */
  lemma StuckIsStale(w: World, s: State, ticks: nat, h: Height)
    requires Settled(w) && DownwardClosed(w) && Stuck(w, s, h)
    requires 1 <= h && h + 1 < HEIGHT_LIMIT && Floor(w, s.clock, h + 1)
    ensures Stale(w, Wait(s, ticks), h)
  {
    hide Inv, Settled, Passes;
    FinalityPersists(w, s.clock, s.clock + ticks, h);
  }

  /** While votes and heads only grow, a search after one that met no error and no full vote cache never
      answers less, whatever was cached before, if no list is stale up to the earlier result. */
  lemma GrowingRunRises(w: World, s: State, gaps: seq<nat>, k: nat)
    requires Settled(w) && DownwardClosed(w) && Reached(w, s) && k + 1 < |gaps|
    requires UpFrom(w, Visit(w, s, gaps, k).clock) && |Visit(w, s, gaps, k).votes| < CACHE_MAP_COUNT
    requires Result(w, s, gaps, k).Ok? ==> ClearTo(w, Visit(w, s, gaps, k + 1), Result(w, s, gaps, k).value)
    requires forall i: nat, j: nat :: i <= j < |gaps| ==> Head(w, s, gaps, i) <= Head(w, s, gaps, j)
    requires From(s.last) <= Head(w, s, gaps, 0)
    ensures Result(w, s, gaps, k).Ok? && Result(w, s, gaps, k + 1).Ok?
    ensures Result(w, s, gaps, k).value <= Result(w, s, gaps, k + 1).value
  {
    hide Query, Settled, DownwardClosed, UpFrom, Reached, Quiet, ClearTo, StoredOk, Visit, Stale, Stuck, Visible, Floor;
    var one, two := Visit(w, s, gaps, k), Visit(w, s, gaps, k + 1);
    UpQueries(w, one);
    VisitNext(w, s, gaps, k);
    EveryRunReached(w, s, gaps, k);
    UpLater(w, one.clock, two.clock);
    RunFallsExactly(w, s, gaps, k);
    var (after, result) := Query(w, one);
    if Slips(w, two, result.value) {
      RunStartsBelowHead(w, s, gaps, k);
      ReachedIsQuiet(w, one);
      assert Head(w, s, gaps, k) <= Head(w, s, gaps, k + 1);
      HeadAnswerLeavesList(w, one);
      QueryFinds(w, one);
      StuckIsStale(w, after, gaps[k + 1], result.value - 1);
    }
  }

  lemma VisitNext(w: World, s: State, gaps: seq<nat>, k: nat)
    requires k + 1 < |gaps|
    ensures Visit(w, s, gaps, k + 1) == Wait(Query(w, Visit(w, s, gaps, k)).0, gaps[k + 1])
  {
  }

  lemma {:induction false} RunStartsBelowHead(w: World, s: State, gaps: seq<nat>, k: nat)
    requires Settled(w) && DownwardClosed(w) && Reached(w, s) && k < |gaps|
    requires forall i: nat, j: nat :: i <= j < |gaps| ==> Head(w, s, gaps, i) <= Head(w, s, gaps, j)
    requires From(s.last) <= Head(w, s, gaps, 0)
    ensures From(Visit(w, s, gaps, k).last) <= Head(w, s, gaps, k)
  {
    hide Query, Settled, DownwardClosed, Reached, Inv, StoredOk, Visit;
    if k == 0 {
      assert Visit(w, s, gaps, 0) == Wait(s, gaps[0]) by { VisitFirst(w, s, gaps); }
    } else {
      RunStartsBelowHead(w, s, gaps, k - 1);
      EveryRunReached(w, s, gaps, k - 1);
      var before := Visit(w, s, gaps, k - 1);
      ReachedParts(w, before);
      InvWeakens(w, before, Memory(before.log), iset{});
      QueryLast(w, before);
      VisitNext(w, s, gaps, k - 1);
      assert Head(w, s, gaps, k - 1) <= Head(w, s, gaps, k);
    }
  }

  lemma VisitFirst(w: World, s: State, gaps: seq<nat>)
    requires |gaps| > 0
    ensures Visit(w, s, gaps, 0) == Wait(s, gaps[0])
  {
  }

  /** So over a whole run: nothing fails, the vote cache stays below its limit, no list is stale up to
      the last result when a search starts, and results rise from any search to any later one. */
  lemma {:induction false} GrowingRunNeverFalls(w: World, s: State, gaps: seq<nat>, i: nat, j: nat)
    requires Settled(w) && DownwardClosed(w) && Reached(w, s) && i <= j < |gaps|
    requires UpFrom(w, Visit(w, s, gaps, i).clock)
    requires forall k: nat :: i <= k < j ==>
      && |Visit(w, s, gaps, k).votes| < CACHE_MAP_COUNT
      && (Result(w, s, gaps, k).Ok? ==> ClearTo(w, Visit(w, s, gaps, k + 1), Result(w, s, gaps, k).value))
    requires forall k: nat, l: nat :: k <= l < |gaps| ==> Head(w, s, gaps, k) <= Head(w, s, gaps, l)
    requires From(s.last) <= Head(w, s, gaps, 0)
    ensures Result(w, s, gaps, i).Ok? && Result(w, s, gaps, j).Ok?
    ensures Result(w, s, gaps, i).value <= Result(w, s, gaps, j).value
    decreases j - i
  {
    hide Query, Settled, DownwardClosed, UpFrom, Reached, ClearTo, Visit;
    UpQueries(w, Visit(w, s, gaps, i));
    if i < j {
      GrowingRunRises(w, s, gaps, i);
      EveryRunReached(w, s, gaps, i);
      VisitNext(w, s, gaps, i);
      UpLater(w, Visit(w, s, gaps, i).clock, Visit(w, s, gaps, i + 1).clock);
      GrowingRunNeverFalls(w, s, gaps, i + 1, j);
    }
  }

  // ----- a still remote state: results only rise -----

  /** While no vote is added no list becomes stale, through any search and any flush. */
  lemma FrozenStaysClear(w: World, s: State, ticks: nat)
    requires Settled(w) && DownwardClosed(w) && Frozen(w, s.clock) && Quiet(w, s)
    ensures
      var s' := Wait(Query(w, s).0, ticks);
      forall h: Height :: Stale(w, s', h) ==> Stale(w, s, h)
  {
    hide Query, Settled, DownwardClosed, Inv, StoredOk, Stale, Finalized, Frozen;
    var low := iset h: Height | Finalized(w, s.clock, h) && !Stale(w, s, h);
    var (after, s') := (Query(w, s).0, Wait(Query(w, s).0, ticks));
    QuietKnows(w, s, low);
    QueryQuiet(w, s, low);
    TimePasses(w, after, s'.clock, low);
    forall h: Height | Stale(w, s', h) ensures Stale(w, s, h) {
      StaleFinal(w, s', h);
      FrozenFinality(w, s.clock, s'.clock, h);
      if h in low {
        KnownNotStale(w, s', h, low);
      }
    }
  }

  lemma StaleFinal(w: World, s: State, h: Height)
    requires Stale(w, s, h)
    ensures Finalized(w, s.clock, h)
  {
  }

  lemma KnownNotStale(w: World, s: State, h: Height, low: iset<Height>)
    requires Inv(w, s, low) && h in low
    ensures !Stale(w, s, h)
  {
  }

  lemma {:induction false} ScanBelow(w: World, t: nat, n: Height)
    ensures LinearScan(w, t, n) <= 1 || LinearScan(w, t, n) <= n
  {
    if n > 1 {
      ScanBelow(w, t, n - 1);
    }
  }

  /** While no vote is added, heads do not fall and nothing errs, a search never answers less than the one
      before, however often the vote cache is flushed, if at the earlier one no list was stale up to its
      result and the list of the height below its head was not stale. */
  lemma FrozenRunRises(w: World, s: State, gaps: seq<nat>, k: nat)
    requires Settled(w) && DownwardClosed(w) && Reached(w, s) && k + 1 < |gaps|
    requires Frozen(w, Visit(w, s, gaps, k).clock) && UpFrom(w, Visit(w, s, gaps, k).clock)
    requires Result(w, s, gaps, k).Ok? ==> ClearTo(w, Visit(w, s, gaps, k), Result(w, s, gaps, k).value)
    requires
      var (one, head) := (Visit(w, s, gaps, k), Head(w, s, gaps, k));
      From(one.last) < head ==> !Stale(w, one, head - 1)
    requires forall i: nat, j: nat :: i <= j < |gaps| ==> Head(w, s, gaps, i) <= Head(w, s, gaps, j)
    requires From(s.last) <= Head(w, s, gaps, 0)
    ensures Result(w, s, gaps, k).Ok? && Result(w, s, gaps, k + 1).Ok?
    ensures Result(w, s, gaps, k).value <= Result(w, s, gaps, k + 1).value
    ensures Result(w, s, gaps, k).value <= Head(w, s, gaps, k)
  {
    hide Query, Settled, DownwardClosed, UpFrom, Reached, Quiet, Inv, Visit, Frozen, Stale, ClearTo;
    var one, two := Visit(w, s, gaps, k), Visit(w, s, gaps, k + 1);
    EveryRunReached(w, s, gaps, k);
    ReachedIsQuiet(w, one);
    UpQueries(w, one);
    VisitNext(w, s, gaps, k);
    UpLater(w, one.clock, two.clock);
    FrozenStaysClear(w, one, gaps[k + 1]);
    var (after, result) := Query(w, one);
    ClearLater(w, one, two, result.value);
    RunFallsExactly(w, s, gaps, k);
    var head := Head(w, s, gaps, k);
    assert head <= Head(w, s, gaps, k + 1);
    RunStartsBelowHead(w, s, gaps, k);
    StoredRises(one, after);
    if From(one.last) < head && result.value == head {
      ClearBelow(w, one, head, head - 1);
      FastIsLinear(w, one);
      ScanBelow(w, one.clock, head - 1);
    }
  }

  lemma ClearLater(w: World, s: State, s': State, h: Height)
    requires ClearTo(w, s, h) && From(s.last) <= From(s'.last)
    requires forall g: Height :: Stale(w, s', g) ==> Stale(w, s, g)
    ensures ClearTo(w, s', h)
  {
    hide Stale;
  }

  lemma ClearBelow(w: World, s: State, h: Height, g: Height)
    requires ClearTo(w, s, h) && g <= h
    ensures ClearTo(w, s, g)
  {
    hide Stale;
  }

  /** So over a whole run from its i-th search on: no vote added, no call failing, and no stale list
      between the stored height of that search and the last head, both included. */
  lemma {:induction false} FrozenRunNeverFalls(w: World, s: State, gaps: seq<nat>, i: nat, j: nat)
    requires Settled(w) && DownwardClosed(w) && Reached(w, s) && i <= j < |gaps|
    requires Frozen(w, Visit(w, s, gaps, i).clock) && UpFrom(w, Visit(w, s, gaps, i).clock)
    requires forall h: Height ::
      From(Visit(w, s, gaps, i).last) <= h <= Head(w, s, gaps, j) ==> !Stale(w, Visit(w, s, gaps, i), h)
    requires forall k: nat, l: nat :: k <= l < |gaps| ==> Head(w, s, gaps, k) <= Head(w, s, gaps, l)
    requires From(s.last) <= Head(w, s, gaps, 0)
    ensures Result(w, s, gaps, i).Ok? && Result(w, s, gaps, j).Ok?
    ensures Result(w, s, gaps, i).value <= Result(w, s, gaps, j).value
    decreases j - i
  {
    hide Query, Settled, DownwardClosed, UpFrom, Reached, Quiet, Visit, Frozen, Stale, Visible, Floor;
    var one := Visit(w, s, gaps, i);
    UpQueries(w, one);
    if i < j {
      var two := Visit(w, s, gaps, i + 1);
      EveryRunReached(w, s, gaps, i);
      ReachedIsQuiet(w, one);
      RunStartsBelowHead(w, s, gaps, i);
      QueryFinds(w, one);
      assert Head(w, s, gaps, i) <= Head(w, s, gaps, j);
      FrozenRunRises(w, s, gaps, i);
      VisitNext(w, s, gaps, i);
      UpLater(w, one.clock, two.clock);
      FrozenLater(w, one.clock, two.clock);
      FrozenStaysClear(w, one, gaps[i + 1]);
      StoredRises(one, Query(w, one).0);
      FrozenRunNeverFalls(w, s, gaps, i + 1, j);
    }
  }

  lemma FrozenLater(w: World, t: nat, u: nat)
    requires Frozen(w, t) && t <= u
    ensures Frozen(w, u)
  {
  }

  lemma StoredRises(s: State, s': State)
    requires s.last <= s'.last
    ensures From(s.last) <= From(s'.last)
  {
  }
}
