/** The search for the newest finalized height, as the points at which it waits for the next answer. */
module Search {
  import opened Machine
  import opened World
  import opened Lookups
  import opened Micro

  const FAST_CHECK := 256

  /** Where a running `QueryFinalizedBlockInBabylon` stands. */
  datatype Ctl =
    | Begin
    | GotHead(head: Height)
    | Top(head: Height, from: Height)        // asks head - 1
    | Jump(head: Height, from: Height)       // asks head - 256
    | Next(head: Height, from: Height)       // asks head, which is from + 1
    | Try(head: Height, from: Height)        // asks from + 1
    | Bisect(from: Height, to: Height)       // asks the midpoint
    | Commit(height: Height, rest: Ctl)      // SetLastFinalized, then rest
    | Done(result: Outcome<Height>)

  /** `(from + to + 1) / 2` on `uint64`. */
  function Mid(from: U64, to: U64): U64 {
    AddU64(AddU64(from, to), 1) / 2
  }

  /** The midpoint lies strictly between the ends exactly when the sum does not wrap. */
  lemma MidExact(from: U64, to: U64)
    requires from + 1 < to
    ensures from < Mid(from, to) < to <==> from + to + 1 < MOD
  {
    var sum := from + to;
    assert AddU64(from, to) == if sum < MOD then sum else sum - MOD;
  }

  /** For block numbers it never wraps, and each half is at most the rounded-up half. */
  lemma MidHalves(from: Height, to: Height)
    requires from + 1 < to
    ensures from < Mid(from, to) < to
    ensures Mid(from, to) - from == (to - from + 1) / 2 && to - Mid(from, to) == (to - from) / 2
  {
  }

  predicate Asking(c: Ctl) {
    c.Top? || c.Jump? || c.Next? || c.Try? || c.Bisect?
  }

  predicate WellFormed(c: Ctl) {
    match c
    case Begin | GotHead(_) | Done(_) => true
    case Top(head, from) => 1 < head
    case Jump(head, from) => from < head - FAST_CHECK
    case Next(head, from) => from + 1 == head
    case Try(head, from) => from + 1 < head
    case Bisect(from, to) => from + 1 < to
    case Commit(_, rest) => WellFormed(rest)
  }

  function Target(c: Ctl): Height
    requires Asking(c) && WellFormed(c)
  {
    match c
    case Top(head, _) => head - 1
    case Jump(head, _) => head - FAST_CHECK
    case Next(head, _) => head
    case Try(_, from) => from + 1
    case Bisect(from, to) => MidHalves(from, to); Mid(from, to)
  }

  function From(last: Height): Height {
    if last == 0 then 1 else last
  }

  function Start(head: Height, last: Height): (c: Ctl)
    ensures WellFormed(c) && Phase(c) <= 4
  {
    if head == From(last) then Done(Ok(head))
    else if head > 1 then Top(head, From(last))
    else AfterTop(head, From(last))
  }

  function AfterTop(head: Height, from: Height): (c: Ctl)
    ensures WellFormed(c) && Phase(c) <= 3
  {
    if head > FAST_CHECK && head - FAST_CHECK > from then Jump(head, from) else AfterJump(head, from)
  }

  function AfterJump(head: Height, from: Height): (c: Ctl)
    ensures WellFormed(c) && Phase(c) <= 2
  {
    if from + 1 == head then Next(head, from)
    else if from + 1 < head then Try(head, from)
    else Split(from, head)
  }

  /** Entry of `queryFinalizedBlockInBabylonFromTo`, the ends in either order. */
  function Split(from: Height, to: Height): (c: Ctl)
    ensures WellFormed(c) && Phase(c) <= 1
    ensures Width(c) <= if from > to then from - to else to - from
  {
    var (a, b) := if from > to then (to, from) else (from, to);
    if a == b then Commit(b, Done(Ok(b)))
    else if a + 1 == b then Commit(a, Done(Ok(a)))
    else Bisect(a, b)
  }

  /** What the search does with the answer it waited for. */
  function Resume(c: Ctl, answer: Outcome<bool>): (next: Ctl)
    requires Asking(c) && WellFormed(c)
    ensures WellFormed(next)
    ensures Phase(next) < Phase(c) || (Phase(next) == Phase(c) && Width(next) < Width(c))
  {
    match c
    case Top(head, from) =>
      if answer == Ok(true) then Done(Ok(head - 1)) else AfterTop(head, from)
    case Jump(head, from) =>
      if answer.Err? then Done(Err(answer.fault))
      else AfterJump(head, if answer.value then head - FAST_CHECK else from)
    case Next(head, from) =>
      if answer.Err? then Done(Err(answer.fault)) else Done(Ok(if answer.value then head else from))
    case Try(head, from) =>
      if answer.Err? then Done(Err(answer.fault)) else Split(if answer.value then from + 1 else from, head)
    case Bisect(from, to) =>
      MidHalves(from, to);
      var check := Mid(from, to);
      if answer.Err? then Done(Err(answer.fault))
      else if answer.value then Commit(check - 1, Split(check, to))
      else Split(from, check)
  }

  function Phase(c: Ctl): nat {
    match c
    case Begin => 6 case GotHead(_) => 5 case Top(_, _) => 4 case Jump(_, _) => 3
    case Next(_, _) => 2 case Try(_, _) => 2 case Bisect(_, _) => 1
    case Commit(_, rest) => Phase(rest) case Done(_) => 0
  }

  function Width(c: Ctl): nat {
    match c
    case Bisect(from, to) => if from < to then to - from else 0
    case Commit(_, rest) => Width(rest)
    case _ => 0
  }

  function Depth(c: Ctl): nat {
    if c.Commit? then 1 + Depth(c.rest) else 0
  }

  /** A move that needs no answer: reading the head, reading or raising the stored height. */
  function Glide(w: World, s: State, c: Ctl): (State, Ctl)
    requires WellFormed(c)
  {
    match c
    case Begin =>
      (Tick(s), if w.down(s.clock, HeadCall) then Done(Err(HeadCall)) else GotHead(w.heads(s.clock)))
    case GotHead(head) => (s, Start(head, s.last))
    case Commit(height, rest) => (SetLast(s, height), rest)
    case _ => (s, c)
  }

  ghost function Advance(w: World, s: State, c: Ctl): (r: (State, Ctl))
    requires WellFormed(c) && !c.Done?
    ensures WellFormed(r.1)
    ensures Phase(r.1) <= Phase(c)
    ensures Phase(r.1) == Phase(c) ==> Width(r.1) <= Width(c)
    ensures Phase(r.1) == Phase(c) && Width(r.1) == Width(c) ==> Depth(r.1) < Depth(c)
  {
    if Asking(c) then
      var (s', answer) := ByNumber(w, s, Target(c));
      (s', Resume(c, answer))
    else Glide(w, s, c)
  }

  /** A search run by one goroutine with no other goroutine in between. */
  ghost function Run(w: World, s: State, c: Ctl): (State, Outcome<Height>)
    requires WellFormed(c)
    decreases Phase(c), Width(c), Depth(c)
  {
    if c.Done? then (s, c.result)
    else
      var (s', c') := Advance(w, s, c);
      Run(w, s', c')
  }

  /** `QueryFinalizedBlockInBabylon`. */
  ghost function Query(w: World, s: State): (State, Outcome<Height>) {
    Run(w, s, Begin)
  }

  /** `queryFinalizedBlockInBabylonFromTo`, in the recursive form of the source. */
  ghost function FromTo(w: World, s: State, from: Height, to: Height): (State, Outcome<Height>)
    decreases from > to, if from > to then 0 else to - from
  {
    if from > to then FromTo(w, s, to, from)
    else if from == to then (s, Ok(to))
    else if from + 1 == to then (s, Ok(from))
    else
      MidHalves(from, to);
      var check := Mid(from, to);
      var (s', answer) := ByNumber(w, s, check);
      if answer.Err? then (s', Err(answer.fault))
      else if answer.value then FromTo(w, SetLast(s', check - 1), check, to)
      else FromTo(w, s', from, check)
  }

  ghost function Stored(r: (State, Outcome<Height>)): (State, Outcome<Height>) {
    if r.1.Ok? then (SetLast(r.0, r.1.value), r.1) else r
  }

  lemma RunDone(w: World, s: State, result: Outcome<Height>)
    ensures Run(w, s, Done(result)) == (s, result)
  {
  }

  lemma RunCommit(w: World, s: State, height: Height, rest: Ctl)
    requires WellFormed(rest)
    ensures Run(w, s, Commit(height, rest)) == Run(w, SetLast(s, height), rest)
  {
  }

  lemma RunAsk(w: World, s: State, c: Ctl)
    requires WellFormed(c) && Asking(c)
    ensures var (s', answer) := ByNumber(w, s, Target(c)); Run(w, s, c) == Run(w, s', Resume(c, answer))
  {
  }

  /** The waiting points and the recursion are the same search. */
  lemma {:induction false} SplitIsFromTo(w: World, s: State, from: Height, to: Height)
    ensures Run(w, s, Split(from, to)) == Stored(FromTo(w, s, from, to))
    decreases from > to, if from > to then 0 else to - from
  {
    hide Run, ByNumber;
    if from > to {
      SplitIsFromTo(w, s, to, from);
    } else if from == to || from + 1 == to {
      RunCommit(w, s, from, Done(Ok(from)));
      RunDone(w, SetLast(s, from), Ok(from));
    } else {
      MidHalves(from, to);
      var check := Mid(from, to);
      var (s', answer) := ByNumber(w, s, check);
      RunAsk(w, s, Bisect(from, to));
      if answer.Err? {
        RunDone(w, s', Err(answer.fault));
      } else if answer.value {
        RunCommit(w, s', check - 1, Split(check, to));
        SplitIsFromTo(w, SetLast(s', check - 1), check, to);
      } else {
        SplitIsFromTo(w, s', from, check);
      }
    }
  }

  // ----- what a search may promise, step by step -----

  /** Every height a search may store or answer is finalized, or the floor. */
  ghost predicate Backed(w: World, t: nat, c: Ctl) {
    match c
    case Begin | GotHead(_) => true
    case Top(_, from) => Floor(w, t, from)
    case Jump(_, from) => Floor(w, t, from)
    case Next(_, from) => Floor(w, t, from)
    case Try(_, from) => Floor(w, t, from)
    case Bisect(from, to) => Floor(w, t, from)
    case Commit(height, rest) => Floor(w, t, height) && Backed(w, t, rest)
    case Done(result) => result.Ok? ==> Floor(w, t, result.value)
  }

  lemma {:induction false} BackedLater(w: World, t: nat, u: nat, c: Ctl)
    requires Settled(w) && t <= u && Backed(w, t, c)
    ensures Backed(w, u, c)
  {
    forall h: Height ensures Finalized(w, t, h) ==> Finalized(w, u, h) {
      FinalityPersists(w, t, u, h);
    }
    if c.Commit? {
      BackedLater(w, t, u, c.rest);
    }
  }

  lemma FloorBelow(w: World, t: nat, g: Height, h: Height)
    requires DownwardClosed(w) && g <= h && Floor(w, t, h)
    ensures Floor(w, t, g)
  {
  }

  lemma SplitBacked(w: World, t: nat, from: Height, to: Height)
    requires DownwardClosed(w) && Floor(w, t, from)
    ensures Backed(w, t, Split(from, to))
  {
    if to < from {
      FloorBelow(w, t, to, from);
    }
  }

  lemma StartBacked(w: World, t: nat, head: Height, last: Height)
    requires DownwardClosed(w) && Floor(w, t, last)
    ensures Backed(w, t, Start(head, last))
  {
    SplitBacked(w, t, From(last), head);
  }

  lemma ResumeBacked(w: World, t: nat, c: Ctl, answer: Outcome<bool>, low: iset<Height>)
    requires DownwardClosed(w) && Asking(c) && WellFormed(c) && Backed(w, t, c)
    requires Sound(w, t, Target(c), answer, low)
    ensures Backed(w, t, Resume(c, answer))
  {
    match c
    case Top(head, from) => SplitBacked(w, t, from, head);
    case Jump(head, from) => SplitBacked(w, t, from, head);
    case Next(head, from) =>
    case Try(head, from) =>
      SplitBacked(w, t, from, head);
      if answer == Ok(true) {
        SplitBacked(w, t, from + 1, head);
      }
    case Bisect(from, to) =>
      MidHalves(from, to);
      var check := Mid(from, to);
      SplitBacked(w, t, from, check);
      if answer == Ok(true) {
        FloorBelow(w, t, check - 1, check);
        SplitBacked(w, t, check, to);
      }
  }

  /** `low` is closed downwards as far as `base`. */
  ghost predicate ClosedAbove(low: iset<Height>, base: Height) {
    forall g: Height, h: Height :: base < g <= h && h in low ==> g in low
  }

  /** No height of `low` below the head can be missed any more. */
  ghost predicate Covers(low: iset<Height>, base: Height, head: Height, c: Ctl) {
    match c
    case Begin | GotHead(_) => false
    case Top(hd, from) => hd == head && base <= from < head
    case Jump(hd, from) => hd == head && base <= from
    case Next(hd, from) => hd == head && base <= from
    case Try(hd, from) => hd == head && base <= from
    case Bisect(from, to) => base <= from && to <= head && forall h: Height :: h in low && h < head ==> h < to
    case Commit(height, rest) => height <= head && Covers(low, base, head, rest)
    case Done(result) =>
      result.Ok? ==> base <= result.value <= head && forall h: Height :: h in low && h < head ==> h <= result.value
  }

  lemma StartCovers(low: iset<Height>, head: Height, last: Height)
    requires From(last) <= head
    ensures Covers(low, From(last), head, Start(head, last))
  {
  }

  lemma ResumeCovers(low: iset<Height>, base: Height, head: Height, c: Ctl, answer: Outcome<bool>)
    requires Asking(c) && WellFormed(c) && Covers(low, base, head, c) && ClosedAbove(low, base)
    requires answer.Ok? && Target(c) in low ==> answer.value
    ensures Covers(low, base, head, Resume(c, answer))
  {
    if c.Bisect? {
      MidHalves(c.from, c.to);
    }
  }

  // ----- one sequential search -----

  ghost predicate StoredOk(w: World, s: State) {
    Floor(w, s.clock, s.last)
  }

  lemma HeadReadSafe(w: World, s: State, low: iset<Height>)
    requires Settled(w) && Inv(w, s, low) && StoredOk(w, s)
    ensures Inv(w, Tick(s), low) && StoredOk(w, Tick(s))
  {
    hide Inv, Settled;
    TimePasses(w, s, s.clock + 1, low);
    FinalityPersists(w, s.clock, s.clock + 1, s.last);
  }

  lemma SetLastSafe(w: World, s: State, height: Height, low: iset<Height>)
    requires Inv(w, s, low) && StoredOk(w, s) && Floor(w, s.clock, height)
    ensures Inv(w, SetLast(s, height), low) && StoredOk(w, SetLast(s, height))
  {
  }

  lemma GlideSafe(w: World, s: State, c: Ctl, low: iset<Height>)
    requires Settled(w) && DownwardClosed(w) && WellFormed(c)
    requires Inv(w, s, low) && StoredOk(w, s) && Backed(w, s.clock, c)
    ensures
      var (s', c') := Glide(w, s, c);
      && Inv(w, s', low) && StoredOk(w, s') && Backed(w, s'.clock, c')
      && s.last <= s'.last && s.clock <= s'.clock
  {
    hide Inv, Settled, Start, DownwardClosed, Finalized;
    if c.Begin? {
      HeadReadSafe(w, s, low);
    } else if c.GotHead? {
      StartBacked(w, s.clock, c.head, s.last);
    } else if c.Commit? {
      SetLastSafe(w, s, c.height, low);
    }
  }

  lemma AdvanceSafe(w: World, s: State, c: Ctl, low: iset<Height>)
    requires Settled(w) && DownwardClosed(w) && WellFormed(c) && !c.Done?
    requires Inv(w, s, low) && StoredOk(w, s) && Backed(w, s.clock, c)
    ensures
      var (s', c') := Advance(w, s, c);
      && Inv(w, s', low) && StoredOk(w, s') && Backed(w, s'.clock, c')
      && s.last <= s'.last && s.clock <= s'.clock
  {
    hide Inv, Settled, Resume, Glide, ByNumber, DownwardClosed, Finalized, Backed, Sound;
    if Asking(c) {
      var h := Target(c);
      var (s', answer) := ByNumber(w, s, h);
      ProbeSound(w, s, h, low);
      ProbeFrame(w, s, h);
      BackedLater(w, s.clock, s'.clock, c);
      FinalityPersists(w, s.clock, s'.clock, s.last);
      ResumeBacked(w, s'.clock, c, answer, low);
    } else {
      GlideSafe(w, s, c, low);
    }
  }

  /** A whole search, errors or not: caches stay coherent, the stored height never falls and stays
      finalized, and an answer is finalized when it is given. */
  lemma {:induction false} RunSafe(w: World, s: State, c: Ctl, low: iset<Height>)
    requires Settled(w) && DownwardClosed(w) && WellFormed(c)
    requires Inv(w, s, low) && StoredOk(w, s) && Backed(w, s.clock, c)
    ensures
      var (s', result) := Run(w, s, c);
      && Inv(w, s', low) && StoredOk(w, s')
      && s.last <= s'.last && s.clock <= s'.clock
      && (result.Ok? ==> Floor(w, s'.clock, result.value))
    decreases Phase(c), Width(c), Depth(c)
  {
    if !c.Done? {
      AdvanceSafe(w, s, c, low);
      var (s1, c1) := Advance(w, s, c);
      RunSafe(w, s1, c1, low);
    }
  }

  /** No height known to be finalized below the head is overlooked. */
  lemma {:induction false} RunCovers(w: World, s: State, c: Ctl, low: iset<Height>, base: Height, head: Height)
    requires Settled(w) && WellFormed(c)
    requires Inv(w, s, low) && Covers(low, base, head, c) && ClosedAbove(low, base)
    ensures
      var (s', result) := Run(w, s, c);
      && (s.last <= head ==> s'.last <= head)
      && (result.Ok? ==>
            base <= result.value <= head && forall h: Height :: h in low && h < head ==> h <= result.value)
    decreases Phase(c), Width(c), Depth(c)
  {
    if !c.Done? {
      var (s1, c1) := Advance(w, s, c);
      if Asking(c) {
        ProbeSound(w, s, Target(c), low);
        ProbeFrame(w, s, Target(c));
        ResumeCovers(low, base, head, c, ByNumber(w, s, Target(c)).1);
      }
      RunCovers(w, s1, c1, low, base, head);
    }
  }

  lemma {:induction false} RunBounded(w: World, s: State, c: Ctl)
    requires WellFormed(c) && Bounded(s)
    ensures Bounded(Run(w, s, c).0)
    decreases Phase(c), Width(c), Depth(c)
  {
    if !c.Done? {
      if Asking(c) {
        ProbeBounded(w, s, Target(c));
      }
      var (s1, c1) := Advance(w, s, c);
      RunBounded(w, s1, c1);
    }
  }
}
