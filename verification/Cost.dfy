/** How many per-height finality checks one search makes. */
module Cost {
  import opened Machine
  import opened World
  import opened Lookups
  import opened Micro
  import opened Search
  import opened Bracketing

  function CeilLog2(d: nat): nat {
    if d <= 1 then 0 else 1 + CeilLog2((d + 1) / 2)
  }

  function Pow2(n: nat): nat {
    if n == 0 then 1 else 2 * Pow2(n - 1)
  }

  /** It is the rounded-up binary logarithm. */
  lemma {:induction false} CeilLog2Meaning(d: nat)
    requires d >= 2
    ensures CeilLog2(d) >= 1 && Pow2(CeilLog2(d) - 1) < d <= Pow2(CeilLog2(d))
  {
    if d > 2 {
      CeilLog2Meaning((d + 1) / 2);
    }
  }

  lemma {:induction false} CeilLog2Monotone(d: nat, e: nat)
    requires d <= e
    ensures CeilLog2(d) <= CeilLog2(e)
    decreases e
  {
    if d > 1 {
      CeilLog2Monotone((d + 1) / 2, (e + 1) / 2);
    }
  }

  lemma FastLog()
    ensures CeilLog2(FAST_CHECK) == 8
  {
    assert CeilLog2(16) == 4 by { assert CeilLog2(4) == 2; }
    assert CeilLog2(256) == 4 + CeilLog2(16) by { assert CeilLog2(64) == 2 + CeilLog2(16); }
  }

  function Distance(a: Height, b: Height): nat {
    if a < b then b - a else a - b
  }

  /** Checks a search may still make from where it waits. */
  function Budget(c: Ctl): nat {
    match c
    case Begin | GotHead(_) => 0
    case Top(head, from) => 3 + CeilLog2(Distance(from, head))
    case Jump(head, from) => 2 + CeilLog2(Distance(from, head))
    case Next(_, _) => 1
    case Try(head, from) => 1 + CeilLog2(Distance(from, head))
    case Bisect(from, to) => CeilLog2(Distance(from, to))
    case Commit(_, rest) => Budget(rest)
    case Done(_) => 0
  }

  lemma SplitBudget(from: Height, to: Height)
    ensures Budget(Split(from, to)) <= CeilLog2(Distance(from, to))
  {
  }

  lemma AfterJumpBudget(head: Height, from: Height)
    ensures Budget(AfterJump(head, from)) <= 1 + CeilLog2(Distance(from, head))
  {
    SplitBudget(from, head);
  }

  lemma StartBudget(head: Height, last: Height)
    ensures Budget(Start(head, last)) <= 3 + CeilLog2(Distance(From(last), head))
  {
    AfterJumpBudget(head, From(last));
  }

  lemma BisectBudget(from: Height, to: Height, answer: Outcome<bool>)
    requires from + 1 < to
    ensures Budget(Resume(Bisect(from, to), answer)) + 1 <= CeilLog2(to - from)
  {
    hide Split, Mid;
    MidHalves(from, to);
    var check := Mid(from, to);
    SplitBudget(from, check);
    SplitBudget(check, to);
    CeilLog2Monotone(to - check, check - from);
    assert CeilLog2(to - from) == 1 + CeilLog2(check - from);
  }

  /** Each answer costs one check of the budget. */
  lemma ResumeBudget(c: Ctl, answer: Outcome<bool>)
    requires Asking(c) && WellFormed(c)
    ensures Budget(Resume(c, answer)) + 1 <= Budget(c)
  {
    hide CeilLog2, Split, AfterJump, Mid;
    match c
    case Top(head, from) => AfterJumpBudget(head, from);
    case Jump(head, from) =>
      AfterJumpBudget(head, from);
      AfterJumpBudget(head, head - FAST_CHECK);
      CeilLog2Monotone(FAST_CHECK, Distance(from, head));
    case Next(_, _) =>
    case Try(head, from) =>
      SplitBudget(from, head);
      SplitBudget(from + 1, head);
      CeilLog2Monotone(Distance(from + 1, head), Distance(from, head));
    case Bisect(from, to) => BisectBudget(from, to, answer);
  }

  /** Past the reading of the head and of the stored height. */
  predicate Late(c: Ctl) {
    match c
    case Begin | GotHead(_) => false
    case Commit(_, rest) => Late(rest)
    case _ => true
  }

  lemma StartLate(head: Height, last: Height)
    ensures Late(Start(head, last))
  {
  }

  lemma SplitLate(from: Height, to: Height)
    ensures Late(Split(from, to))
  {
  }

  lemma ResumeLate(c: Ctl, answer: Outcome<bool>)
    requires Asking(c) && WellFormed(c)
    ensures Late(Resume(c, answer))
  {
    hide Split;
    if c.Bisect? {
      MidHalves(c.from, c.to);
      SplitLate(Mid(c.from, c.to), c.to);
      SplitLate(c.from, Mid(c.from, c.to));
    } else if c.Try? {
      SplitLate(c.from, c.head);
      SplitLate(c.from + 1, c.head);
    } else if c.Top? || c.Jump? {
      SplitLate(c.from, c.head);
    }
  }

  /** The log of checks grows by no more than the budget. */
  lemma {:induction false} RunCost(w: World, s: State, c: Ctl)
    requires WellFormed(c) && Late(c)
    ensures |Run(w, s, c).0.log| <= |s.log| + Budget(c)
    decreases Phase(c), Width(c), Depth(c)
  {
    hide ByNumber, Resume, Start;
    if !c.Done? {
      var (s1, c1) := Advance(w, s, c);
      if Asking(c) {
        var answer := ByNumber(w, s, Target(c)).1;
        ProbeFrame(w, s, Target(c));
        ResumeBudget(c, answer);
        ResumeLate(c, answer);
      }
      RunCost(w, s1, c1);
    }
  }

  /** At most three checks more than the rounded-up logarithm of the distance to the head. */
  lemma QueryCost(w: World, s: State)
    ensures
      var (head, spent) := (w.heads(s.clock), |Query(w, s).0.log| - |s.log|);
      spent <= 3 + CeilLog2(Distance(From(s.last), head))
  {
    hide Run, Start, CeilLog2;
    if w.down(s.clock, HeadCall) {
      QueryHeadDown(w, s);
    } else {
      QueryUnfold(w, s);
      var c := Start(w.heads(s.clock), s.last);
      StartLate(w.heads(s.clock), s.last);
      StartBudget(w.heads(s.clock), s.last);
      RunCost(w, Tick(s), c);
    }
  }

  lemma JumpCost(w: World, s: State, head: Height, from: Height, low: iset<Height>)
    requires Settled(w) && Inv(w, s, low) && from < head - FAST_CHECK && (head - FAST_CHECK) as Height in low
    ensures |Run(w, s, Jump(head, from)).0.log| <= |s.log| + 10
  {
    hide ByNumber, Run, Settled, Inv, AfterJump;
    var (s1, answer) := ByNumber(w, s, head - FAST_CHECK);
    ProbeFrame(w, s, head - FAST_CHECK);
    ProbeSound(w, s, head - FAST_CHECK, low);
    RunAsk(w, s, Jump(head, from));
    var c := Resume(Jump(head, from), answer);
    FastLog();
    AfterJumpBudget(head, head - FAST_CHECK);
    ResumeLate(Jump(head, from), answer);
    RunCost(w, s1, c);
  }

  /** However far the stored height lags, a finalized height 256 below the head whose list is not stale
      keeps it to eleven. */
  lemma QueryCostNearHead(w: World, s: State)
    requires Settled(w) && Inv(w, s, iset{})
    requires From(s.last) < w.heads(s.clock) - FAST_CHECK
    requires
      var jump: Height := w.heads(s.clock) - FAST_CHECK;
      Finalized(w, s.clock, jump) && !Stale(w, s, jump)
    ensures |Query(w, s).0.log| - |s.log| <= 11
  {
    hide ByNumber, Run, Settled, Finalized, Inv, Stale, AfterJump;
    var head := w.heads(s.clock);
    if w.down(s.clock, HeadCall) {
      QueryHeadDown(w, s);
    } else {
      QueryUnfold(w, s);
      var low := iset{(head - FAST_CHECK) as Height};
      QuietKnows(w, s, low);
      TimePasses(w, s, s.clock + 1, low);
      var from := From(s.last);
      var (s1, answer) := ByNumber(w, Tick(s), head - 1);
      ProbeFrame(w, Tick(s), head - 1);
      ProbeSound(w, Tick(s), head - 1, low);
      RunAsk(w, Tick(s), Top(head, from));
      if answer == Ok(true) {
        RunDone(w, s1, Ok(head - 1));
      } else {
        JumpCost(w, s1, head, from, low);
      }
    }
  }
}
