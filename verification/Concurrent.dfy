/** Any number of searches at once. A move of one goroutine is one lock section or one remote call, so
    an arbitrary list of events is an arbitrary interleaving of the provider's goroutines. */
module Concurrent {
  import opened Machine
  import opened Quorum
  import opened World
  import opened Lookups
  import opened Micro
  import opened Search
  import opened Bracketing
  import opened Refinement
  import opened Runs

  type Point = c: Ctl | WellFormed(c) witness Begin

  /** One goroutine: where its search waits, how far the probe it waits for has come, and the head and
      the starting height it read. */
  datatype Task = Task(ctl: Point, micro: Micro, head: Height, start: Height)

  datatype System = System(shared: State, tasks: map<nat, Task>)

  datatype Event = Spawn(id: nat) | Move(id: nat) | Elapse(ticks: nat)

  const FRESH := System(INITIAL, map[])

  ghost function MoveTask(w: World, s: State, task: Task): (State, Task)
    requires !task.ctl.Done?
  {
    if Asking(task.ctl) then
      var h := Target(task.ctl);
      if task.micro.Answered? then
        (Record(s, h, task.micro.answer), task.(ctl := Resume(task.ctl, task.micro.answer), micro := ReadFinal))
      else
        var (s', m') := Step(w, s, h, task.micro);
        (s', task.(micro := m'))
    else
      var (s', c') := Glide(w, s, task.ctl);
      (s', if task.ctl.GotHead? then Task(c', ReadFinal, task.ctl.head, From(s.last))
           else task.(ctl := c', micro := ReadFinal))
  }

  ghost function React(w: World, sys: System, e: Event): System {
    match e
    case Spawn(id) =>
      if id in sys.tasks then sys else sys.(tasks := sys.tasks[id := Task(Begin, ReadFinal, 0, 0)])
    case Elapse(ticks) => sys.(shared := Wait(sys.shared, ticks))
    case Move(id) =>
      if id !in sys.tasks || sys.tasks[id].ctl.Done? then sys
      else
        var (s', task') := MoveTask(w, sys.shared, sys.tasks[id]);
        System(s', sys.tasks[id := task'])
  }

  ghost function Exec(w: World, sys: System, events: seq<Event>): System {
    if events == [] then sys
    else React(w, Exec(w, sys, events[..|events| - 1]), events[|events| - 1])
  }

  lemma ReactFrame(w: World, sys: System, e: Event)
    ensures
      var (s, s') := (sys.shared, React(w, sys, e).shared);
      s.last <= s'.last && s.clock <= s'.clock && s.log <= s'.log
  {
    hide Step, Resume, Start;
    if e.Move? && e.id in sys.tasks && !sys.tasks[e.id].ctl.Done? {
      var task := sys.tasks[e.id];
      if Asking(task.ctl) {
        StepFrame(w, sys.shared, Target(task.ctl), task.micro);
      }
    }
  }

  /** The stored height, the clock and the log only grow, whatever happens. */
  lemma {:induction false} ExecFrame(w: World, sys: System, events: seq<Event>)
    ensures
      var (s, s') := (sys.shared, Exec(w, sys, events).shared);
      s.last <= s'.last && s.clock <= s'.clock && s.log <= s'.log
  {
    hide React;
    if events != [] {
      ExecFrame(w, sys, events[..|events| - 1]);
      ReactFrame(w, Exec(w, sys, events[..|events| - 1]), events[|events| - 1]);
    }
  }

  // ----- every interleaving: caches, probes and answers -----

  ghost predicate TaskHolds(w: World, t: nat, task: Task, low: iset<Height>) {
    Asking(task.ctl) ==> Holds(w, t, Target(task.ctl), task.micro, low)
  }

  ghost predicate CachesOk(w: World, s: State, low: iset<Height>, since: nat) {
    Inv(w, s, low) && LogSound(w, s, low, since)
  }

  ghost predicate AnswersOk(w: World, sys: System, low: iset<Height>, since: nat) {
    && CachesOk(w, sys.shared, low, since)
    && forall id: nat :: id in sys.tasks ==> TaskHolds(w, sys.shared.clock, sys.tasks[id], low)
  }

  lemma TaskLater(w: World, t: nat, u: nat, task: Task, low: iset<Height>)
    requires Settled(w) && t <= u && TaskHolds(w, t, task, low)
    ensures TaskHolds(w, u, task, low)
  {
    hide Settled, Holds;
    if Asking(task.ctl) {
      HoldsLater(w, t, u, Target(task.ctl), task.micro, low);
    }
  }

  lemma ReadyHolds(w: World, t: nat, h: Height, low: iset<Height>)
    ensures Holds(w, t, h, ReadFinal, low)
  {
  }

  lemma AnsweredSound(w: World, t: nat, h: Height, answer: Outcome<bool>, low: iset<Height>)
    requires Holds(w, t, h, Answered(answer), low)
    ensures Sound(w, t, h, answer, low)
  {
  }

  lemma GlideKeeps(w: World, s: State, c: Ctl, low: iset<Height>)
    requires Settled(w) && WellFormed(c) && Inv(w, s, low)
    ensures var s' := Glide(w, s, c).0; Inv(w, s', low) && s'.log == s.log && s.clock <= s'.clock
  {
    hide Settled, Inv, Start;
    if c.Begin? {
      TimePasses(w, s, s.clock + 1, low);
    } else if c.Commit? {
      SetLastKeeps(w, s, c.height, low);
    }
  }

  /** One move: the goroutine takes in the answer it waited for, takes one piece of its probe, or reads
      the head or the stored height, or raises the stored height. */
  lemma MoveAnswers(w: World, s: State, task: Task, low: iset<Height>, since: nat)
    requires Settled(w) && !task.ctl.Done?
    requires CachesOk(w, s, low, since) && TaskHolds(w, s.clock, task, low)
    ensures
      var (s', task') := MoveTask(w, s, task);
      CachesOk(w, s', low, since) && TaskHolds(w, s'.clock, task', low) && s.clock <= s'.clock
  {
    hide Settled, Inv, Resume, Sound, Holds, Step, Glide;
    var (s', task') := MoveTask(w, s, task);
    if !Asking(task.ctl) {
      GlideKeeps(w, s, task.ctl, low);
      LogLater(w, s, s', low, since);
    } else if task.micro.Answered? {
      AnsweredSound(w, s.clock, Target(task.ctl), task.micro.answer, low);
      RecordSafe(w, s, Target(task.ctl), task.micro.answer, low);
    } else {
      StepSafe(w, s, Target(task.ctl), task.micro, low);
      StepFrame(w, s, Target(task.ctl), task.micro);
      LogLater(w, s, s', low, since);
    }
    if Asking(task'.ctl) {
      ReadyHolds(w, s'.clock, Target(task'.ctl), low);
    }
  }

  lemma WaitAnswers(w: World, s: State, ticks: nat, low: iset<Height>, since: nat)
    requires Settled(w) && CachesOk(w, s, low, since)
    ensures CachesOk(w, Wait(s, ticks), low, since)
  {
    hide Settled, Inv, LogSound;
    TimePasses(w, s, s.clock + ticks, low);
    LogLater(w, s, Wait(s, ticks), low, since);
  }

  lemma ReactAnswers(w: World, sys: System, e: Event, low: iset<Height>, since: nat)
    requires Settled(w) && AnswersOk(w, sys, low, since)
    ensures AnswersOk(w, React(w, sys, e), low, since)
  {
    hide Settled, CachesOk, TaskHolds, MoveTask;
    var sys' := React(w, sys, e);
    ReactFrame(w, sys, e);
    forall id: nat | id in sys.tasks ensures TaskHolds(w, sys'.shared.clock, sys.tasks[id], low) {
      TaskLater(w, sys.shared.clock, sys'.shared.clock, sys.tasks[id], low);
    }
    match e
    case Spawn(id) => SpawnHolds(w, sys.shared.clock, low);
    case Elapse(ticks) => WaitAnswers(w, sys.shared, ticks, low, since);
    case Move(id) =>
      if id in sys.tasks && !sys.tasks[id].ctl.Done? {
        MoveAnswers(w, sys.shared, sys.tasks[id], low, since);
      }
  }

  lemma SpawnHolds(w: World, t: nat, low: iset<Height>)
    ensures TaskHolds(w, t, Task(Begin, ReadFinal, 0, 0), low)
  {
  }

  lemma {:induction false} AnswersKept(w: World, sys: System, events: seq<Event>, low: iset<Height>, since: nat)
    requires Settled(w) && AnswersOk(w, sys, low, since)
    ensures AnswersOk(w, Exec(w, sys, events), low, since)
  {
    hide Settled, AnswersOk, React;
    if events != [] {
      AnswersKept(w, sys, events[..|events| - 1], low, since);
      ReactAnswers(w, Exec(w, sys, events[..|events| - 1]), events[|events| - 1], low, since);
    }
  }

  // ----- every interleaving: stored heights and results -----

  ghost predicate HeightsOk(w: World, sys: System) {
    && StoredOk(w, sys.shared)
    && forall id: nat :: id in sys.tasks ==> Backed(w, sys.shared.clock, sys.tasks[id].ctl)
  }

  lemma MoveHeights(w: World, s: State, task: Task)
    requires Settled(w) && DownwardClosed(w) && !task.ctl.Done?
    requires Inv(w, s, iset{}) && TaskHolds(w, s.clock, task, iset{})
    requires StoredOk(w, s) && Backed(w, s.clock, task.ctl)
    ensures var (s', task') := MoveTask(w, s, task); StoredOk(w, s') && Backed(w, s'.clock, task'.ctl)
  {
    hide Settled, DownwardClosed, Inv, Resume, Backed, Sound, Holds, Step, Glide, Finalized;
    if !Asking(task.ctl) {
      GlideSafe(w, s, task.ctl, iset{});
    } else if task.micro.Answered? {
      AnsweredSound(w, s.clock, Target(task.ctl), task.micro.answer, iset{});
      ResumeBacked(w, s.clock, task.ctl, task.micro.answer, iset{});
    } else {
      StepFrame(w, s, Target(task.ctl), task.micro);
      var s' := Step(w, s, Target(task.ctl), task.micro).0;
      FinalityPersists(w, s.clock, s'.clock, s.last);
      BackedLater(w, s.clock, s'.clock, task.ctl);
    }
  }

  lemma ReactHeights(w: World, sys: System, e: Event)
    requires Settled(w) && DownwardClosed(w) && AnswersOk(w, sys, iset{}, |sys.shared.log|) && HeightsOk(w, sys)
    ensures HeightsOk(w, React(w, sys, e))
  {
    hide Settled, DownwardClosed, Inv, LogSound, TaskHolds, Backed, MoveTask, Finalized;
    var (s, s') := (sys.shared, React(w, sys, e).shared);
    ReactFrame(w, sys, e);
    forall id: nat | id in sys.tasks ensures Backed(w, s'.clock, sys.tasks[id].ctl) {
      BackedLater(w, s.clock, s'.clock, sys.tasks[id].ctl);
    }
    match e
    case Spawn(id) => SpawnBacked(w, s.clock);
    case Elapse(ticks) => FinalityPersists(w, s.clock, s'.clock, s.last);
    case Move(id) =>
      if id in sys.tasks && !sys.tasks[id].ctl.Done? {
        MoveHeights(w, s, sys.tasks[id]);
      }
  }

  lemma SpawnBacked(w: World, t: nat)
    ensures Backed(w, t, Begin)
  {
  }

  lemma AnswersForget(w: World, sys: System, low: iset<Height>, since: nat, later: nat)
    requires AnswersOk(w, sys, low, since) && since <= later
    ensures AnswersOk(w, sys, low, later)
  {
    hide Inv, TaskHolds, Sound;
  }

  lemma {:induction false} HeightsKept(w: World, sys: System, events: seq<Event>)
    requires Settled(w) && DownwardClosed(w) && AnswersOk(w, sys, iset{}, |sys.shared.log|) && HeightsOk(w, sys)
    ensures HeightsOk(w, Exec(w, sys, events))
  {
    hide Settled, DownwardClosed, AnswersOk, HeightsOk, React;
    if events != [] {
      var before := Exec(w, sys, events[..|events| - 1]);
      HeightsKept(w, sys, events[..|events| - 1]);
      AnswersKept(w, sys, events[..|events| - 1], iset{}, |sys.shared.log|);
      ExecFrame(w, sys, events[..|events| - 1]);
      AnswersForget(w, before, iset{}, |sys.shared.log|, |before.shared.log|);
      ReactHeights(w, before, events[|events| - 1]);
    }
  }

  // ----- every interleaving: no known height is missed -----

  /** The search started at `base` or above and, if its head is not below its start, will not miss a
      height of `low`. */
  ghost predicate TaskCovers(task: Task, low: iset<Height>, base: Height) {
    || task.ctl.Begin?
    || task.ctl.GotHead?
    || (base <= task.start && (task.head < task.start || Covers(low, task.start, task.head, task.ctl)))
    || (task.ctl.Done? && task.ctl.result.Err?)
  }

  ghost predicate SearchesOk(sys: System, low: iset<Height>, base: Height, watched: iset<nat>) {
    && base <= From(sys.shared.last)
    && forall id: nat :: id in watched && id in sys.tasks ==> TaskCovers(sys.tasks[id], low, base)
  }

  lemma ResumeMoveCovers(w: World, t: nat, task: Task, low: iset<Height>, base: Height)
    requires Asking(task.ctl) && task.micro.Answered?
    requires ClosedAbove(low, base) && TaskHolds(w, t, task, low) && TaskCovers(task, low, base)
    ensures TaskCovers(task.(ctl := Resume(task.ctl, task.micro.answer), micro := ReadFinal), low, base)
  {
    hide Resume, Covers;
    if task.start <= task.head {
      ClosedHigher(low, base, task.start);
      ResumeCovers(low, task.start, task.head, task.ctl, task.micro.answer);
    }
  }

  lemma ClosedHigher(low: iset<Height>, base: Height, higher: Height)
    requires ClosedAbove(low, base) && base <= higher
    ensures ClosedAbove(low, higher)
  {
  }

  lemma GlideMoveCovers(w: World, s: State, task: Task, low: iset<Height>, base: Height)
    requires !task.ctl.Done? && !Asking(task.ctl) && base <= From(s.last) && TaskCovers(task, low, base)
    ensures TaskCovers(MoveTask(w, s, task).1, low, base)
  {
    hide Start;
    if task.ctl.GotHead? && From(s.last) <= task.ctl.head {
      StartCovers(low, task.ctl.head, s.last);
    }
  }

  lemma ReactSearches(w: World, sys: System, e: Event, low: iset<Height>, base: Height, watched: iset<nat>)
    requires ClosedAbove(low, base) && SearchesOk(sys, low, base, watched)
    requires forall id: nat :: id in sys.tasks ==> TaskHolds(w, sys.shared.clock, sys.tasks[id], low)
    ensures SearchesOk(React(w, sys, e), low, base, watched)
  {
    hide Resume, Covers, Step, Glide, TaskHolds, ClosedAbove;
    ReactFrame(w, sys, e);
    if e.Move? && e.id in sys.tasks && e.id in watched && !sys.tasks[e.id].ctl.Done? {
      var task := sys.tasks[e.id];
      if !Asking(task.ctl) {
        GlideMoveCovers(w, sys.shared, task, low, base);
      } else if task.micro.Answered? {
        ResumeMoveCovers(w, sys.shared.clock, task, low, base);
      }
    }
  }

  lemma {:induction false} SearchesKept(w: World, sys: System, events: seq<Event>,
                                        low: iset<Height>, since: nat, base: Height, watched: iset<nat>)
    requires Settled(w) && ClosedAbove(low, base)
    requires AnswersOk(w, sys, low, since) && SearchesOk(sys, low, base, watched)
    ensures SearchesOk(Exec(w, sys, events), low, base, watched)
  {
    hide Settled, ClosedAbove, CachesOk, TaskHolds, SearchesOk, React;
    if events != [] {
      SearchesKept(w, sys, events[..|events| - 1], low, since, base, watched);
      AnswersKept(w, sys, events[..|events| - 1], low, since);
      ReactSearches(w, Exec(w, sys, events[..|events| - 1]), events[|events| - 1], low, base, watched);
    }
  }

  // ----- what that means -----

  ghost const EVERYONE: iset<nat> := iset id: nat | true

  /** Seen from the start of the process. */
  ghost predicate SysInv(w: World, sys: System, low: iset<Height>) {
    AnswersOk(w, sys, low, 0) && HeightsOk(w, sys) && SearchesOk(sys, low, 0, EVERYONE)
  }

  /** Whatever the interleaving, the growth of the votes and the errors: the caches stay coherent, every
      answer ever logged is still right, the stored height never falls and is finalized or the floor,
      and every running or finished search keeps its promise. */
  lemma EveryInterleaving(w: World, sys: System, events: seq<Event>, low: iset<Height>)
    requires Settled(w) && DownwardClosed(w) && ClosedAbove(low, 0) && SysInv(w, sys, low)
    ensures
      var sys' := Exec(w, sys, events);
      && SysInv(w, sys', low)
      && sys.shared.last <= sys'.shared.last && sys.shared.clock <= sys'.shared.clock
  {
    hide Settled, DownwardClosed, AnswersOk, HeightsOk, SearchesOk, Exec, ClosedAbove;
    ExecFrame(w, sys, events);
    AnswersKept(w, sys, events, low, 0);
    AnswersKnowLess(w, sys, low, 0);
    AnswersForget(w, sys, iset{}, 0, |sys.shared.log|);
    HeightsKept(w, sys, events);
    SearchesKept(w, sys, events, low, 0, 0, EVERYONE);
  }

  lemma AnswersKnowLess(w: World, sys: System, low: iset<Height>, since: nat)
    requires AnswersOk(w, sys, low, since)
    ensures AnswersOk(w, sys, iset{}, since)
  {
    hide Coherent, Passes, Finalized, Block;
  }

  lemma FreshOk(w: World, low: iset<Height>)
    requires forall h: Height :: h in low ==> Finalized(w, 0, h)
    ensures SysInv(w, FRESH, low)
  {
  }

  /** Stored height, from the start of the process, under any interleaving. */
  lemma StoredHeightSafe(w: World, early: seq<Event>, late: seq<Event>)
    requires Settled(w) && DownwardClosed(w)
    ensures
      var (one, two) := (Exec(w, FRESH, early).shared, Exec(w, Exec(w, FRESH, early), late).shared);
      one.last <= two.last && (two.last <= 1 || Finalized(w, two.clock, two.last))
  {
    hide Settled, DownwardClosed, Exec, AnswersOk, SearchesOk, Finalized;
    FreshOk(w, iset{});
    EveryInterleaving(w, FRESH, early, iset{});
    EveryInterleaving(w, Exec(w, FRESH, early), late, iset{});
  }

  /** "Finalized" answers are true, now and ever after, under any interleaving. */
  lemma FinalizedAnswersTrue(w: World, events: seq<Event>, p: Probe)
    requires Settled(w)
    requires p in Exec(w, FRESH, events).shared.log && p.answer == Ok(true)
    ensures Finalized(w, Exec(w, FRESH, events).shared.clock, p.height)
  {
    hide Settled, Exec, Inv, TaskHolds, Finalized;
    FreshOk(w, iset{});
    AnswersKept(w, FRESH, events, iset{}, 0);
  }

  /** On a still remote state every answer, cached or not, is the uncached decision. */
  lemma StillAnswersExact(w: World, events: seq<Event>, p: Probe)
    requires Settled(w) && Frozen(w, 0)
    requires p in Exec(w, FRESH, events).shared.log && p.answer.Ok?
    ensures p.answer.value <==> Finalized(w, Exec(w, FRESH, events).shared.clock, p.height)
  {
    hide Settled, Exec, Inv, TaskHolds, Finalized;
    FreshOk(w, FinalAt(w, 0));
    AnswersKept(w, FRESH, events, FinalAt(w, 0), 0);
    var s := Exec(w, FRESH, events).shared;
    assert Sound(w, s.clock, p.height, p.answer, FinalAt(w, 0));
    FrozenFinality(w, 0, s.clock, p.height);
  }

  // ----- from any moment of a run on -----

  /** A goroutine about to answer "not finalized" for `h`: from the list it holds, or by the answer it
      already has in hand. */
  ghost predicate Poised(task: Task, h: Height) {
    && Asking(task.ctl) && Target(task.ctl) == h
    && (task.micro == Answered(Ok(false))
        || (task.micro.WriteVotes? && !Decides(task.micro.power, task.micro.list)))
  }

  ghost predicate NonePoised(sys: System, h: Height) {
    forall id: nat :: id in sys.tasks ==> !Poised(sys.tasks[id], h)
  }

  /** Nothing in the system hides that `h` is finalized. */
  ghost predicate Open(w: World, sys: System, h: Height) {
    Finalized(w, sys.shared.clock, h) && !Stale(w, sys.shared, h) && NonePoised(sys, h)
  }

  lemma TaskKnows(w: World, t: nat, task: Task, low: iset<Height>)
    requires TaskHolds(w, t, task, iset{}) && forall h: Height :: h in low ==> !Poised(task, h)
    ensures TaskHolds(w, t, task, low)
  {
    hide PowerAt, Block, Decides;
  }

  /** From here on the system can be held to every height that is open now. */
  lemma Reopened(w: World, sys: System, since: nat, low: iset<Height>)
    requires AnswersOk(w, sys, iset{}, since)
    requires forall h: Height :: h in low ==> Open(w, sys, h)
    ensures AnswersOk(w, sys, low, |sys.shared.log|)
  {
    hide Coherent, Passes, Finalized, Block, TaskHolds, Poised;
    forall id: nat | id in sys.tasks ensures TaskHolds(w, sys.shared.clock, sys.tasks[id], low) {
      forall h: Height | h in low ensures !Poised(sys.tasks[id], h) {
        assert Open(w, sys, h);
      }
      TaskKnows(w, sys.shared.clock, sys.tasks[id], low);
    }
    assert forall h: Height :: h in low ==> Open(w, sys, h) && Finalized(w, sys.shared.clock, h);
  }

  /** `h` is finalized and nothing hides that of any height from the stored one up to it. */
  ghost predicate OpenUpTo(w: World, sys: System, h: Height) {
    && Visible(w, sys.shared, h)
    && forall g: Height :: From(sys.shared.last) < g <= h ==> NonePoised(sys, g)
  }

  ghost function OpenAbove(w: World, sys: System): iset<Height> {
    iset h: Height | From(sys.shared.last) < h && OpenUpTo(w, sys, h)
  }

  lemma OpenAboveIsOpen(w: World, sys: System)
    requires DownwardClosed(w)
    ensures ClosedAbove(OpenAbove(w, sys), From(sys.shared.last))
    ensures forall h: Height :: h in OpenAbove(w, sys) ==> Open(w, sys, h)
  {
    hide Stale, NonePoised;
    forall g: Height, h: Height | From(sys.shared.last) < g <= h && h in OpenAbove(w, sys)
      ensures g in OpenAbove(w, sys)
    {
      assert Finalized(w, sys.shared.clock, g);
    }
  }

  /** Not yet past the point where it reads the stored height. */
  ghost predicate Early(sys: System, id: nat) {
    id in sys.tasks ==> sys.tasks[id].ctl.Begin? || sys.tasks[id].ctl.GotHead?
  }

  /** Any moment `sys` of any run, whatever else is going on then, and any search that has not read the
      stored height yet: however the rest is interleaved, an answer of it is finalized, lies between its
      start and its head, and reaches every height below its head that was open at `sys`. */
  lemma ConcurrentSearchesBracket(w: World, sys: System, events: seq<Event>, id: nat, since: nat)
    requires Settled(w) && DownwardClosed(w) && AnswersOk(w, sys, iset{}, since) && HeightsOk(w, sys)
    requires Early(sys, id)
    requires
      var tasks := Exec(w, sys, events).tasks;
      id in tasks && tasks[id].ctl.Done? && tasks[id].ctl.result.Ok? && tasks[id].start <= tasks[id].head
    ensures
      var sys' := Exec(w, sys, events);
      var (task, r) := (sys'.tasks[id], sys'.tasks[id].ctl.result.value);
      && Floor(w, sys'.shared.clock, r)
      && From(sys.shared.last) <= task.start <= r <= task.head
      && forall h: Height :: h < task.head && OpenUpTo(w, sys, h) ==> h <= r
  {
    hide Settled, DownwardClosed, Exec, AnswersOk, Finalized, OpenUpTo, Open;
    var (low, base) := (OpenAbove(w, sys), From(sys.shared.last));
    var watched := iset i: nat | Early(sys, i);
    OpenAboveIsOpen(w, sys);
    Reopened(w, sys, since, low);
    Reopened(w, sys, since, iset{});
    HeightsKept(w, sys, events);
    SearchesKept(w, sys, events, low, |sys.shared.log|, base, watched);
    forall h: Height | base < h && OpenUpTo(w, sys, h) ensures h in low {
    }
  }

  // ----- cache capacity: no hypothesis on the remote services at all -----

  lemma GlideBounded(w: World, s: State, c: Ctl)
    requires WellFormed(c) && Bounded(s)
    ensures Bounded(Glide(w, s, c).0)
  {
  }

  lemma ReactBounded(w: World, sys: System, e: Event)
    requires Bounded(sys.shared)
    ensures Bounded(React(w, sys, e).shared)
  {
    hide Step, Glide, Resume;
    if e.Move? && e.id in sys.tasks && !sys.tasks[e.id].ctl.Done? {
      var task := sys.tasks[e.id];
      if Asking(task.ctl) {
        StepBounded(w, sys.shared, Target(task.ctl), task.micro);
      } else {
        GlideBounded(w, sys.shared, task.ctl);
      }
    }
  }

  /** Each cache holds at most CacheMapCount + 1 entries, in every state of every interleaving. */
  lemma {:induction false} CapacityAlways(w: World, events: seq<Event>)
    ensures Bounded(Exec(w, FRESH, events).shared)
    ensures
      var s := Exec(w, FRESH, events).shared;
      && |s.votes| <= 4097 && |s.finalized| <= 4097 && |s.btc| <= 4097 && |s.power| <= 4097 && |s.blocks| <= 4097
  {
    hide React;
    if events == [] {
    } else {
      CapacityAlways(w, events[..|events| - 1]);
      ReactBounded(w, Exec(w, FRESH, events[..|events| - 1]), events[|events| - 1]);
    }
  }

  // ----- the sequential search is one of the interleavings -----

  lemma {:induction false} ExecConcat(w: World, sys: System, one: seq<Event>, two: seq<Event>)
    ensures Exec(w, sys, one + two) == Exec(w, Exec(w, sys, one), two)
  {
    hide React;
    if two == [] {
      assert one + two == one;
    } else {
      var rest := two[..|two| - 1];
      assert (one + two)[..|one + two| - 1] == one + rest;
      ExecConcat(w, sys, one, rest);
    }
  }

  lemma ExecFirst(w: World, sys: System, e: Event, events: seq<Event>)
    ensures Exec(w, sys, [e] + events) == Exec(w, React(w, sys, e), events)
  {
    hide React;
    ExecConcat(w, sys, [e], events);
    assert [e][..0] == [];
    assert Exec(w, sys, [e]) == React(w, sys, e);
  }

  /** A goroutine that is not interrupted finishes its probe as the sequential code would. */
  lemma {:induction false} SoloProbe(w: World, sys: System, id: nat) returns (events: seq<Event>)
    requires id in sys.tasks && Asking(sys.tasks[id].ctl)
    ensures
      var task := sys.tasks[id];
      var (s', answer) := Alone(w, sys.shared, Target(task.ctl), task.micro);
      Exec(w, sys, events) == System(s', sys.tasks[id := task.(micro := Answered(answer))])
    decreases Left(sys.tasks[id].micro)
  {
    hide Step, Answer, Record, Resume, Glide, Exec;
    var task := sys.tasks[id];
    if task.micro.Answered? {
      events := [];
      ExecNone(w, sys);
      assert sys.tasks[id := task] == sys.tasks;
    } else {
      StepShrinks(w, sys.shared, Target(task.ctl), task.micro);
      var sys1 := React(w, sys, Move(id));
      events := SoloProbe(w, sys1, id);
      ExecFirst(w, sys, Move(id), events);
      events := [Move(id)] + events;
      assert sys1.tasks[id := task.(micro := Answered(Alone(w, sys1.shared, Target(task.ctl), sys1.tasks[id].micro).1))]
          == sys.tasks[id := task.(micro := Answered(Alone(w, sys1.shared, Target(task.ctl), sys1.tasks[id].micro).1))];
    }
  }

  lemma ExecNone(w: World, sys: System)
    ensures Exec(w, sys, []) == sys
  {
  }

  lemma RunAdvance(w: World, s: State, c: Ctl)
    requires WellFormed(c) && !c.Done?
    ensures var (s', c') := Advance(w, s, c); Run(w, s, c) == Run(w, s', c')
  {
  }

  lemma AloneIsByNumber(w: World, s: State, h: Height)
    ensures var (s', answer) := Alone(w, s, h, ReadFinal); ByNumber(w, s, h) == (Record(s', h, answer), answer)
  {
    hide Alone, Answer;
    AloneIsAnswer(w, s, h);
  }

  /** An uninterrupted goroutine reaches its next waiting point. */
  lemma SoloAdvance(w: World, sys: System, id: nat) returns (events: seq<Event>)
    requires id in sys.tasks && !sys.tasks[id].ctl.Done? && sys.tasks[id].micro == ReadFinal
    ensures
      var (s', c') := Advance(w, sys.shared, sys.tasks[id].ctl);
      var sys' := Exec(w, sys, events);
      && sys'.shared == s' && sys'.tasks.Keys == sys.tasks.Keys
      && sys'.tasks[id].ctl == c' && sys'.tasks[id].micro == ReadFinal
      && forall other: nat :: other in sys.tasks && other != id ==> sys'.tasks[other] == sys.tasks[other]
  {
    hide Exec, Alone, Step, Resume, ByNumber, Glide;
    var task := sys.tasks[id];
    if Asking(task.ctl) {
      AloneIsByNumber(w, sys.shared, Target(task.ctl));
      var probe := SoloProbe(w, sys, id);
      var sys1 := Exec(w, sys, probe);
      var sys2 := React(w, sys1, Move(id));
      events := probe + [Move(id)];
      ExecConcat(w, sys, probe, [Move(id)]);
      ExecFirst(w, sys1, Move(id), []);
      ExecNone(w, sys2);
      assert [Move(id)] + [] == [Move(id)];
    } else {
      events := [Move(id)];
      ExecFirst(w, sys, Move(id), []);
      ExecNone(w, React(w, sys, Move(id)));
      assert [Move(id)] + [] == [Move(id)];
    }
  }

  /** Left alone, a goroutine does exactly what the sequential search does. */
  lemma {:induction false} SoloRun(w: World, sys: System, id: nat) returns (events: seq<Event>)
    requires id in sys.tasks && sys.tasks[id].micro == ReadFinal
    ensures
      var (s', result) := Run(w, sys.shared, sys.tasks[id].ctl);
      var sys' := Exec(w, sys, events);
      && sys'.shared == s' && sys'.tasks.Keys == sys.tasks.Keys
      && sys'.tasks[id].ctl == Done(result)
      && forall other: nat :: other in sys.tasks && other != id ==> sys'.tasks[other] == sys.tasks[other]
    decreases Phase(sys.tasks[id].ctl), Width(sys.tasks[id].ctl), Depth(sys.tasks[id].ctl)
  {
    hide Exec, Run, Resume, ByNumber, Glide;
    var c := sys.tasks[id].ctl;
    if c.Done? {
      events := [];
      ExecNone(w, sys);
      RunDone(w, sys.shared, c.result);
    } else {
      RunAdvance(w, sys.shared, c);
      var one := SoloAdvance(w, sys, id);
      var sys1 := Exec(w, sys, one);
      var two := SoloRun(w, sys1, id);
      events := one + two;
      ExecConcat(w, sys, one, two);
    }
  }
}
