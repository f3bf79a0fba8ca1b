/** The fast search against a plain scan, and what a stale vote list costs. */
module Refinement {
  import opened Machine
  import opened Quorum
  import opened World
  import opened Lookups
  import opened Micro
  import opened Search
  import opened Bracketing
  import opened Cost

  /** The simple form: walk down from `n` to the first finalized height; 1 is the floor. */
  ghost function LinearScan(w: World, t: nat, n: Height): Height {
    if n <= 1 then 1 else if Finalized(w, t, n) then n else LinearScan(w, t, n - 1)
  }

  lemma {:induction false} ScanIsGreatest(w: World, t: nat, n: Height, r: Height)
    requires 1 <= r && (r <= n || n == 0) && Floor(w, t, r)
    requires forall h: Height :: 1 < h <= n && Finalized(w, t, h) ==> h <= r
    ensures LinearScan(w, t, n) == r || r > n
  {
    if n > 1 && r < n {
      ScanIsGreatest(w, t, n - 1, r);
    }
  }

  ghost function FinalAt(w: World, t: nat): iset<Height> {
    iset h: Height | Finalized(w, t, h)
  }

  lemma FrozenFinality(w: World, t: nat, u: nat, h: Height)
    requires Frozen(w, t) && t <= u
    ensures Finalized(w, u, h) == Finalized(w, t, h)
  {
  }

  /** When the height below the head is finalized the first probe already answers. */
  lemma TopAnswers(w: World, s: State, head: Height)
    requires Settled(w) && UpFrom(w, s.clock) && From(s.last) != head && 2 <= head
    requires Inv(w, s, iset{(head - 1) as Height})
    ensures Run(w, s, Start(head, s.last)).1 == Ok(head - 1)
  {
    hide ByNumber, Run, Settled, Inv;
    var c := Top(head, From(s.last));
    UpAnswers(w, s, head - 1);
    ProbeSound(w, s, head - 1, iset{(head - 1) as Height});
    RunAsk(w, s, c);
    RunDone(w, ByNumber(w, s, head - 1).0, Ok(head - 1));
  }

  /** On a still remote state and without errors, the probes and the bisection return exactly what
      the linear scan down from head - 1 returns, if no list is stale from the stored height to there. */
  lemma FastIsLinear(w: World, s: State)
    requires Settled(w) && DownwardClosed(w) && UpFrom(w, s.clock) && Frozen(w, s.clock) && Quiet(w, s)
    requires From(s.last) < w.heads(s.clock)
    requires ClearTo(w, s, w.heads(s.clock) - 1) && !Stale(w, s, w.heads(s.clock) - 1)
    ensures Query(w, s).1 == Ok(LinearScan(w, s.clock, w.heads(s.clock) - 1))
  {
    hide Run, Settled, Inv, Start, Stale;
    var t, head := s.clock, w.heads(s.clock);
    QueryUnfold(w, s);
    UpRuns(w, s, Begin);
    QueryFinds(w, s);
    var (s', result) := Query(w, s);
    var r := result.value;
    QueryQuiet(w, s, iset{});
    FrozenFinality(w, t, s'.clock, r);
    if r == head {
      assert Finalized(w, t, head) && Finalized(w, t, head - 1);
      QuietKnows(w, s, iset{(head - 1) as Height});
      HeadReadSafe(w, s, iset{(head - 1) as Height});
      TopAnswers(w, Tick(s), head);
    } else {
      forall h: Height | 1 < h <= head - 1 && Finalized(w, t, h) ensures h <= r {
        assert Visible(w, s, h);
      }
      ScanIsGreatest(w, t, head - 1, r);
    }
  }

  // ----- where the bisection ends, whatever the world -----

  /** The answers in `added` put the end of the finalized heights of `[from, to)` at `r`. */
  ghost predicate AnsweredFrontier(added: seq<Probe>, from: Height, to: Height, r: Height) {
    && from <= r < to
    && (r == from || Probe(r, Ok(true)) in added)
    && (r + 1 == to || Probe(r + 1, Ok(false)) in added)
  }

  lemma FromToEnd(w: World, s: State, from: Height, to: Height)
    requires from + 1 == to
    ensures FromTo(w, s, from, to) == (s, Ok(from))
  {
  }

  lemma FromToStep(w: World, s: State, from: Height, to: Height, check: Height, s': State, answer: Outcome<bool>)
    requires from + 1 < to && check == Target(Bisect(from, to)) && (s', answer) == ByNumber(w, s, check)
    ensures from < check < to
    ensures
      FromTo(w, s, from, to) ==
        if answer.Err? then (s', Err(answer.fault))
        else if answer.value then FromTo(w, SetLast(s', check - 1), check, to)
        else FromTo(w, s', from, check)
  {
    hide ByNumber, SetLast, Mid;
    MidHalves(from, to);
  }

  lemma SetLastKeeps(w: World, s: State, h: Height, low: iset<Height>)
    requires Inv(w, s, low)
    ensures Inv(w, SetLast(s, h), low) && SetLast(s, h).clock == s.clock
  {
  }

  /** No hypothesis on the remote services or the caches: without error the bisection ends on a frontier
      of its own answers, and below the stored height it stores nothing. */
  lemma {:induction false} EndsOnItsAnswers(w: World, s: State, from: Height, to: Height)
    requires from < to
    ensures
      var (s', result) := FromTo(w, s, from, to);
      && s.log <= s'.log
      && (to <= From(s.last) ==> s'.last == s.last)
      && (result.Ok? ==> AnsweredFrontier(s'.log[|s.log|..], from, to, result.value))
    decreases if from < to then to - from else 0
  {
    hide ByNumber, Mid, FromTo;
    if from + 1 == to {
      FromToEnd(w, s, from, to);
    } else {
      var check := Target(Bisect(from, to));
      var (s1, answer) := ByNumber(w, s, check);
      FromToStep(w, s, from, to, check, s1, answer);
      ProbeFrame(w, s, check);
      var s' := FromTo(w, s, from, to).0;
      if answer == Ok(true) {
        EndsOnItsAnswers(w, SetLast(s1, check - 1), check, to);
        assert s'.log[|s.log|..] == [Probe(check, answer)] + s'.log[|s1.log|..];
      } else if answer.Ok? {
        EndsOnItsAnswers(w, s1, from, check);
        assert s'.log[|s.log|..] == [Probe(check, answer)] + s'.log[|s1.log|..];
      }
    }
  }

  /** The answers of a bisection are worth what `Sound` says. */
  lemma {:induction false} FromToSound(w: World, s: State, from: Height, to: Height, low: iset<Height>)
    requires Settled(w) && Inv(w, s, low) && from < to
    ensures
      var s' := FromTo(w, s, from, to).0;
      s.log <= s'.log && s.clock <= s'.clock && LogSound(w, s', low, |s.log|)
    decreases if from < to then to - from else 0
  {
    hide ByNumber, Settled, Inv, Sound, Finalized, Mid, FromTo;
    if from + 1 == to {
      FromToEnd(w, s, from, to);
    } else {
      var check := Target(Bisect(from, to));
      var (s1, answer) := ByNumber(w, s, check);
      FromToStep(w, s, from, to, check, s1, answer);
      ProbeFrame(w, s, check);
      ProbeSound(w, s, check, low);
      SetLastKeeps(w, s1, check - 1, low);
      var s' := FromTo(w, s, from, to).0;
      if answer == Ok(true) {
        FromToSound(w, SetLast(s1, check - 1), check, to, low);
      } else if answer.Ok? {
        FromToSound(w, s1, from, check, low);
      }
      assert s1.log[|s.log|] == Probe(check, answer) && s1.log <= s'.log;
      SoundLater(w, s1.clock, s'.clock, check, answer, low);
    }
  }

  lemma SoundLater(w: World, t: nat, u: nat, h: Height, answer: Outcome<bool>, low: iset<Height>)
    requires Settled(w) && t <= u && Sound(w, t, h, answer, low)
    ensures Sound(w, u, h, answer, low)
  {
    FinalityPersists(w, t, u, h);
  }

  /** From any coherent state, while finality grows in whatever shape: the bisection ends on `from` or a
      finalized height, and the height after it is `to`, or was not finalized at the start, or its cached
      list was stale. */
  lemma FrontierFound(w: World, s: State, from: Height, to: Height)
    requires Settled(w) && Inv(w, s, iset{}) && from < to
    ensures
      var (s', result) := FromTo(w, s, from, to);
      result.Ok? ==>
        var r := result.value;
        && from <= r < to
        && (r == from || Finalized(w, s'.clock, r))
        && (r + 1 == to || !Finalized(w, s.clock, r + 1) || Stale(w, s, r + 1))
  {
    hide Settled, Inv, Finalized, Stale, FromTo;
    var low := iset h: Height | Finalized(w, s.clock, h) && !Stale(w, s, h);
    QuietKnows(w, s, low);
    EndsOnItsAnswers(w, s, from, to);
    FromToSound(w, s, from, to, low);
  }

  ghost predicate IsFrontier(w: World, t: nat, from: Height, to: Height, r: Height) {
    && from <= r < to
    && (r == from || Finalized(w, t, r))
    && (r + 1 == to || !Finalized(w, t, r + 1))
  }

  /** On a still remote state, without errors and with no stale list between its ends, the bisection
      ends on a local frontier; finality need not be downward closed for this. */
  lemma LocalFrontier(w: World, s: State, from: Height, to: Height)
    requires Settled(w) && UpFrom(w, s.clock) && Frozen(w, s.clock) && Inv(w, s, iset{})
    requires from < to && forall g: Height :: from < g < to ==> !Stale(w, s, g)
    ensures FromTo(w, s, from, to).1.Ok?
    ensures IsFrontier(w, s.clock, from, to, FromTo(w, s, from, to).1.value)
  {
    hide Run, Settled, Inv, Finalized, Stale, FromTo, Frozen, UpFrom, Split;
    SplitSucceeds(from, to);
    UpRuns(w, s, Split(from, to));
    SplitIsFromTo(w, s, from, to);
    FrontierFound(w, s, from, to);
    FromToSound(w, s, from, to, iset{});
    var (s', result) := FromTo(w, s, from, to);
    FrozenFinality(w, s.clock, s'.clock, result.value);
  }

  // ----- a head below the stored height -----

  lemma LowSplit(w: World, s: State, head: Height)
    requires head < From(s.last)
    ensures
      var (s', result) := Run(w, s, Split(From(s.last), head));
      && s'.last == s.last && s.log <= s'.log
      && (result.Ok? ==> AnsweredFrontier(s'.log[|s.log|..], head, From(s.last), result.value))
  {
    hide Run, Split, FromTo;
    SplitIsFromTo(w, s, From(s.last), head);
    FromToSwap(w, s, From(s.last), head);
    EndsOnItsAnswers(w, s, head, From(s.last));
  }

  lemma FromToSwap(w: World, s: State, from: Height, to: Height)
    requires from > to
    ensures FromTo(w, s, from, to) == FromTo(w, s, to, from)
  {
  }

  /** A head below the stored height, in any world and any state: without error the search answers head - 1,
      having heard that it is finalized, or a frontier of its answers from the head up to below the
      stored height, which may lie above the head; it stores nothing. */
  lemma LowHeadAnswers(w: World, s: State, head: Height)
    requires head < From(s.last)
    ensures
      var (s', result) := Run(w, s, Start(head, s.last));
      && s'.last == s.last && s.log <= s'.log
      && (result.Ok? ==>
            var (added, r) := (s'.log[|s.log|..], result.value);
            || (r == head - 1 && Probe(r, Ok(true)) in added)
            || AnsweredFrontier(added, head, From(s.last), r))
  {
    hide Run, ByNumber, Split;
    if head <= 1 {
      LowSplit(w, s, head);
    } else {
      RunAsk(w, s, Top(head, From(s.last)));
      ProbeFrame(w, s, head - 1);
      var (s1, answer) := ByNumber(w, s, head - 1);
      if answer == Ok(true) {
        RunDone(w, s1, Ok(head - 1));
      } else {
        LowSplit(w, s1, head);
      }
    }
  }

  /** Without errors such a search answers the height below its head if and only if that height's list
      is not stale; otherwise it answers the head or a height above it. */
  lemma LowHeadExactly(w: World, s: State, head: Height)
    requires Settled(w) && DownwardClosed(w) && UpFrom(w, s.clock) && Quiet(w, s) && Linked(w, s)
    requires 2 <= head < From(s.last)
    ensures
      var result := Run(w, s, Start(head, s.last)).1;
      && result.Ok?
      && (result.value == head - 1 <==> !Stale(w, s, head - 1))
      && (result.value >= head <==> Stale(w, s, head - 1))
  {
    hide Run, ByNumber, Split, Settled, Inv, UpFrom, Passes, Block;
    StartSucceeds(head, s.last);
    UpRuns(w, s, Start(head, s.last));
    assert Finalized(w, s.clock, head - 1);
    if Stale(w, s, head - 1) {
      StaleAnswersNo(w, s, head - 1);
      RunAsk(w, s, Top(head, From(s.last)));
      ProbeFrame(w, s, head - 1);
      LowSplit(w, ByNumber(w, s, head - 1).0, head);
    } else {
      QuietKnows(w, s, iset{(head - 1) as Height});
      TopAnswers(w, s, head);
    }
  }

  // ----- a stale list above the stored height is exactly what breaks a search -----

  /** No cache flush can happen during one search. */
  predicate Room(s: State) {
    |s.votes| + 66 <= CACHE_MAP_COUNT
  }

  /** The height's list stays cached, so its probes keep saying "not finalized". */
  ghost predicate Stuck(w: World, s: State, h: Height) {
    && Inv(w, s, iset{})
    && h !in s.finalized
    && Block(w, h).hash in s.votes && !Passes(w, h, s.votes[Block(w, h).hash])
  }

  ghost predicate Misses(h: Height, c: Ctl) {
    match c
    case Begin | GotHead(_) => false
    case Top(head, from) => head == h + 1 && from < h
    case Jump(head, from) => head == h + 1 && from < h
    case Next(head, from) => false
    case Try(head, from) => head == h + 1 && from < h
    case Bisect(from, to) => from < h && to <= h + 1
    case Commit(_, rest) => Misses(h, rest)
    case Done(result) => result.Ok? ==> result.value < h
  }

  lemma SplitMisses(h: Height, from: Height, to: Height)
    requires from < h && from < to <= h + 1
    ensures Misses(h, Split(from, to))
  {
  }

  lemma ResumeMisses(h: Height, c: Ctl, answer: Outcome<bool>)
    requires Asking(c) && WellFormed(c) && Misses(h, c)
    requires Target(c) == h ==> answer == Ok(false)
    ensures Misses(h, Resume(c, answer))
  {
    hide Split;
    match c
    case Top(head, from) => SplitMisses(h, from, head);
    case Jump(head, from) => SplitMisses(h, from, head);
    case Try(head, from) =>
      SplitMisses(h, from, head);
      if from + 1 < h {
        SplitMisses(h, from + 1, head);
      }
    case Bisect(from, to) =>
      MidHalves(from, to);
      var check := Mid(from, to);
      SplitMisses(h, from, check);
      if check < h {
        SplitMisses(h, check, to);
      }
  }

  lemma PowerKeepsVotes(w: World, s: State, q: QueryBlock)
    ensures AllPkPower(w, s, q).0.votes == s.votes && AllPkPower(w, s, q).0.finalized == s.finalized
  {
    hide AllFpBtcPubKeys, BtcHeight, MultiFpPower;
    var (s1, pks) := AllFpBtcPubKeys(w, s);
    FpsFrame(w, s);
    if pks.Ok? {
      BtcKeepsVotes(w, s1, q);
      var (s2, btc) := BtcHeight(w, s1, q);
      if btc.Ok? {
        MultiKeepsVotes(w, s2, pks.value, btc.value);
      }
    }
  }

  lemma BtcKeepsVotes(w: World, s: State, q: QueryBlock)
    ensures BtcHeight(w, s, q).0.votes == s.votes && BtcHeight(w, s, q).0.finalized == s.finalized
  {
  }

  lemma MultiKeepsVotes(w: World, s: State, pks: seq<FpKey>, btc: U32)
    ensures MultiFpPower(w, s, pks, btc).0.votes == s.votes && MultiFpPower(w, s, pks, btc).0.finalized == s.finalized
  {
  }

  ghost predicate KeepsList(s: State, s': State, key: string) {
    key in s.votes && key in s'.votes && s'.votes[key] == s.votes[key] && |s'.votes| <= |s.votes| + 1
  }

  lemma VotedKeepsList(w: World, s: State, q: QueryBlock, key: string)
    requires key in s.votes && |s.votes| <= CACHE_MAP_COUNT
    ensures var s' := VotedProviders(w, s, q).0; KeepsList(s, s', key) && s'.finalized == s.finalized
  {
    hide Insert;
    if q.hash !in s.votes {
      InsertGrows(s.votes, q.hash, w.votes(s.clock, q));
    }
  }

  lemma JudgeKeepsList(w: World, s: State, q: QueryBlock, key: string)
    requires key in s.votes && |s.votes| <= CACHE_MAP_COUNT
    ensures var s' := IsBlockFinalized(w, s, q).0; KeepsList(s, s', key) && s'.finalized == s.finalized
  {
    hide Decides, Total, AllPkPower, VotedProviders;
    PowerKeepsVotes(w, s, q);
    VotedKeepsList(w, AllPkPower(w, s, q).0, q, key);
  }

  /** A list once cached is never replaced, only flushed away with the whole map. */
  lemma ProbeKeepsLists(w: World, s: State, g: Height, key: string)
    requires key in s.votes && |s.votes| <= CACHE_MAP_COUNT
    ensures
      var (s', answer) := ByNumber(w, s, g);
      && KeepsList(s, s', key)
      && (forall h: Height :: h in s'.finalized ==> h in s.finalized || (h == g && answer == Ok(true)))
  {
    hide IsBlockFinalized;
    if g !in s.finalized {
      var (s1, header) := BlockByNumber(w, s, g);
      if header.Ok? {
        JudgeKeepsList(w, s1, Ask(header.value), key);
      }
    }
  }

  lemma ProbeSize(w: World, s: State, h: Height)
    requires |s.votes| <= CACHE_MAP_COUNT
    ensures |ByNumber(w, s, h).0.votes| <= |s.votes| + 1
  {
    hide Decides, Total, AllPkPower, VotedProviders;
    if h !in s.finalized {
      var (s1, header) := BlockByNumber(w, s, h);
      if header.Ok? {
        var q := Ask(header.value);
        PowerKeepsVotes(w, s1, q);
        VotedSize(w, AllPkPower(w, s1, q).0, q);
      }
    }
  }

  lemma VotedSize(w: World, s: State, q: QueryBlock)
    requires |s.votes| <= CACHE_MAP_COUNT
    ensures |VotedProviders(w, s, q).0.votes| <= |s.votes| + 1
  {
    hide Insert;
    if q.hash !in s.votes {
      InsertGrows(s.votes, q.hash, w.votes(s.clock, q));
    }
  }

  lemma VotedFills(w: World, s: State, q: QueryBlock)
    ensures
      var (s', list) := VotedProviders(w, s, q);
      && (forall key: string :: key in s'.votes ==> key in s.votes || key == q.hash)
      && (list.Ok? ==> q.hash in s'.votes && s'.votes[q.hash] == list.value)
  {
  }

  lemma JudgeFills(w: World, s: State, h: Height)
    requires Settled(w) && Coherent(w, s)
    ensures
      var (s', answer) := IsBlockFinalized(w, s, Block(w, h));
      && (forall key: string :: key in s'.votes ==> key in s.votes || key == Block(w, h).hash)
      && (answer == Ok(false) ==> Block(w, h).hash in s'.votes && !Passes(w, h, s'.votes[Block(w, h).hash]))
  {
    hide Total, Decides, AllPkPower, VotedProviders, Settled, Coherent, Block, PowerAt;
    TruePower(w, s, h);
    var (s1, power) := AllPkPower(w, s, Block(w, h));
    VotedFills(w, s1, Block(w, h));
    if power.Ok? && Total(power.value) % MOD != 0 {
      var (s2, list) := VotedProviders(w, s1, Block(w, h));
      assert IsBlockFinalized(w, s, Block(w, h)) ==
             (s2, if list.Err? then Err(list.fault) else Ok(Decides(power.value, list.value)));
    }
  }

  /** A probe caches at most its own height's list, and a "not finalized" answer leaves a list behind
      that will go on saying so. */
  lemma ProbeFills(w: World, s: State, h: Height)
    requires Settled(w) && Inv(w, s, iset{})
    ensures
      var (s', answer) := ByNumber(w, s, h);
      && (forall key: string :: key in s'.votes ==> key in s.votes || key == Block(w, h).hash)
      && (answer == Ok(false) ==> Block(w, h).hash in s'.votes && !Passes(w, h, s'.votes[Block(w, h).hash]))
  {
    hide Passes, IsBlockFinalized, BlockByNumber, Settled, Inv, Coherent, Block;
    if h !in s.finalized {
      TrueBlock(w, s, h);
      AskIsBlock(w, h);
      JudgeFills(w, BlockByNumber(w, s, h).0, h);
    }
  }

  lemma ProbeStuck(w: World, s: State, h: Height, g: Height)
    requires Settled(w) && UpFrom(w, s.clock) && Stuck(w, s, h) && |s.votes| <= CACHE_MAP_COUNT
    ensures
      var (s', answer) := ByNumber(w, s, g);
      Stuck(w, s', h) && |s'.votes| <= |s.votes| + 1 && (g == h ==> answer == Ok(false))
  {
    hide ByNumber, Settled, Inv, Block, Passes;
    ProbeSound(w, s, g, iset{});
    ProbeKeepsLists(w, s, g, Block(w, h).hash);
    StaleAnswersNo(w, s, h);
  }

  lemma {:induction false} StuckRun(w: World, s: State, h: Height, c: Ctl)
    requires Settled(w) && UpFrom(w, s.clock) && Stuck(w, s, h)
    requires WellFormed(c) && Misses(h, c) && |s.votes| + Budget(c) <= CACHE_MAP_COUNT
    ensures var result := Run(w, s, c).1; result.Ok? ==> result.value < h
    decreases Phase(c), Width(c), Depth(c)
  {
    hide ByNumber, Settled, Stuck, UpFrom, Resume, CeilLog2;
    if !c.Done? {
      var (s1, c1) := Advance(w, s, c);
      if Asking(c) {
        var answer := ByNumber(w, s, Target(c)).1;
        ResumeBudget(c, answer);
        ProbeStuck(w, s, h, Target(c));
        ProbeFrame(w, s, Target(c));
        ResumeMisses(h, c, answer);
      } else {
        StuckCommit(w, s, h, c);
      }
      UpLater(w, s.clock, s1.clock);
      StuckRun(w, s1, h, c1);
    }
  }

  lemma StuckCommit(w: World, s: State, h: Height, c: Ctl)
    requires Stuck(w, s, h) && c.Commit?
    ensures Stuck(w, SetLast(s, c.height), h) && SetLast(s, c.height).votes == s.votes
    ensures SetLast(s, c.height).clock == s.clock
  {
  }

  lemma {:induction false} LogBound(d: nat, n: nat)
    requires d <= Pow2(n)
    ensures CeilLog2(d) <= n
    decreases n
  {
    if n == 0 {
    } else if d > 1 {
      LogBound((d + 1) / 2, n - 1);
    }
  }

  lemma HeightsFit()
    ensures HEIGHT_LIMIT == Pow2(63)
  {
    assert Pow2(7) == 128;
    PowAdd(7, 7);
    PowAdd(14, 7);
    PowAdd(21, 21);
    PowAdd(42, 21);
  }

  lemma {:induction false} PowAdd(a: nat, b: nat)
    ensures Pow2(a + b) == Pow2(a) * Pow2(b)
  {
    if a > 0 {
      PowAdd(a - 1, b);
    }
  }

  /** A head one above a stale height, and room in the vote cache: the search answers below a height that
      was finalized. */
  lemma StaleLosesGround(w: World, s: State, h: Height)
    requires Settled(w) && UpFrom(w, s.clock) && Quiet(w, s) && Linked(w, s) && Room(s)
    requires Stale(w, s, h) && From(s.last) < h && h + 1 < HEIGHT_LIMIT
    ensures var result := Run(w, s, Start(h + 1, s.last)).1; result.Ok? ==> result.value < h
  {
    var c := Start(h + 1, s.last);
    StartBudget(h + 1, s.last);
    HeightsFit();
    LogBound(Distance(From(s.last), h + 1), 63);
    assert c == Top(h + 1, From(s.last));
    StuckRun(w, s, h, c);
  }

  ghost predicate AlwaysBrackets(w: World, s: State) {
    forall head: Height :: From(s.last) <= head ==>
      var (s', result) := Run(w, s, Start(head, s.last));
      result.Ok? ==> Brackets(w, s.clock, s'.clock, head, result.value)
  }

  /** For a state with room in its vote cache, searches bracket the true frontier for every head if
      and only if no list above the stored height is stale. The room is needed one way only. */
  lemma BracketsExactly(w: World, s: State)
    requires Settled(w) && DownwardClosed(w) && UpFrom(w, s.clock) && Quiet(w, s) && Linked(w, s)
    requires forall h: Height :: Stale(w, s, h) ==> h + 1 < HEIGHT_LIMIT
    ensures NoStaleAbove(w, s) ==> AlwaysBrackets(w, s)
    ensures Room(s) && AlwaysBrackets(w, s) ==> NoStaleAbove(w, s)
  {
    hide Run, Settled, DownwardClosed, UpFrom, Inv, Start, Finalized;
    if NoStaleAbove(w, s) {
      VisibleKnown(w, s);
      VisibleClosed(w, s);
      forall head: Height | From(s.last) <= head
        ensures var (s', result) := Run(w, s, Start(head, s.last));
                result.Ok? ==> Brackets(w, s.clock, s'.clock, head, result.value)
      {
        SearchFinds(w, s, VisibleAbove(w, s), head);
        forall h: Height | From(s.last) < h && Finalized(w, s.clock, h) ensures h in VisibleAbove(w, s) {
        }
      }
    } else if Room(s) {
      var h: Height :| From(s.last) < h && Stale(w, s, h);
      StaleLosesGround(w, s, h);
      StartSucceeds(h + 1, s.last);
      UpRuns(w, s, Start(h + 1, s.last));
      var (s', result) := Run(w, s, Start(h + 1, s.last));
      assert result.Ok? && !Brackets(w, s.clock, s'.clock, h + 1, result.value);
    }
  }
}
