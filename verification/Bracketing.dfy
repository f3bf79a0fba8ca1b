/** What one search finds: everything finalized when it started, nothing that is not finalized when
    it ends, and on a still remote state exactly what a scan down from the head finds. */
module Bracketing {
  import opened Machine
  import opened Quorum
  import opened World
  import opened Lookups
  import opened Micro
  import opened Search

  // ----- stale vote lists -----

  ghost predicate Stale(w: World, s: State, h: Height) {
    Finalized(w, s.clock, h) && Block(w, h).hash in s.votes && !Passes(w, h, s.votes[Block(w, h).hash])
  }

  ghost predicate NoStale(w: World, s: State) {
    forall h: Height :: !Stale(w, s, h)
  }

  /** No stale list above the height a search starts from: what the search needs. */
  ghost predicate NoStaleAbove(w: World, s: State) {
    forall h: Height :: From(s.last) < h ==> !Stale(w, s, h)
  }

  /** Heights in the finalized cache are not stale: so it is after any sequence of calls. */
  ghost predicate Linked(w: World, s: State) {
    forall h: Height :: h in s.finalized ==> !Stale(w, s, h)
  }

  /** Between calls: coherent caches and a stored height that is finalized. */
  ghost predicate Quiet(w: World, s: State) {
    Inv(w, s, iset{}) && StoredOk(w, s)
  }

  /** `r` is finalized (or the floor) at `now`, and nothing below the head final at `t` is above it. */
  ghost predicate Brackets(w: World, t: nat, now: nat, head: Height, r: Height) {
    Floor(w, now, r) && r <= head && forall h: Height :: h < head && Finalized(w, t, h) ==> h <= r
  }

  lemma QuietKnows(w: World, s: State, low: iset<Height>)
    requires Inv(w, s, iset{})
    requires forall h: Height :: h in low ==> Finalized(w, s.clock, h) && !Stale(w, s, h)
    ensures Inv(w, s, low)
  {
  }

  /** No stale list from the start of a search up to `h`. */
  ghost predicate ClearTo(w: World, s: State, h: Height) {
    forall g: Height :: From(s.last) < g <= h ==> !Stale(w, s, g)
  }

  ghost predicate Visible(w: World, s: State, h: Height) {
    Finalized(w, s.clock, h) && ClearTo(w, s, h)
  }

  ghost function VisibleAbove(w: World, s: State): iset<Height> {
    iset h: Height | From(s.last) < h && Visible(w, s, h)
  }

  lemma VisibleClosed(w: World, s: State)
    requires DownwardClosed(w)
    ensures ClosedAbove(VisibleAbove(w, s), From(s.last))
  {
    hide Stale;
    forall g: Height, h: Height | From(s.last) < g <= h && h in VisibleAbove(w, s)
      ensures g in VisibleAbove(w, s)
    {
      assert Finalized(w, s.clock, g);
    }
  }

  lemma VisibleKnown(w: World, s: State)
    requires Quiet(w, s)
    ensures Inv(w, s, VisibleAbove(w, s))
  {
    hide Inv, StoredOk;
    forall h: Height | h in VisibleAbove(w, s) ensures Finalized(w, s.clock, h) && !Stale(w, s, h) {
    }
    QuietKnows(w, s, VisibleAbove(w, s));
  }

  /** One search against any set of known heights. */
  lemma SearchFinds(w: World, s: State, low: iset<Height>, head: Height)
    requires Settled(w) && DownwardClosed(w) && StoredOk(w, s) && Inv(w, s, low)
    requires ClosedAbove(low, From(s.last)) && From(s.last) <= head
    ensures
      var (s', result) := Run(w, s, Start(head, s.last));
      result.Ok? ==>
        && Floor(w, s'.clock, result.value)
        && From(s.last) <= result.value <= head
        && forall h: Height :: h in low && h < head ==> h <= result.value
  {
    hide Inv, Settled, Start, Run;
    StartBacked(w, s.clock, head, s.last);
    StartCovers(low, head, s.last);
    RunSafe(w, s, Start(head, s.last), low);
    RunCovers(w, s, Start(head, s.last), low, From(s.last), head);
  }

  /** What a search that reads `head` from state `s` may answer at `now`. */
  ghost predicate Found(w: World, s: State, now: nat, head: Height, r: Height) {
    && Floor(w, now, r)
    && From(s.last) <= r <= head
    && forall h: Height :: h < head && Visible(w, s, h) ==> h <= r
  }

  /** Every state, stale lists or not; the remote finality may grow between any two probes, and the
      error of the head - 1 probe is swallowed: an answer given without error is finalized, and reaches
      every height below the head up to which no list was stale. */
  lemma QueryFinds(w: World, s: State)
    requires Settled(w) && DownwardClosed(w) && Quiet(w, s)
    requires From(s.last) <= w.heads(s.clock)
    ensures
      var (s', result) := Query(w, s);
      result.Ok? ==> Found(w, s, s'.clock, w.heads(s.clock), result.value)
  {
    hide Run, Start, Settled, DownwardClosed, Finalized, Inv, Stale, Query;
    if w.down(s.clock, HeadCall) {
      QueryHeadDown(w, s);
    } else {
      QueryUnfold(w, s);
      VisibleKnown(w, s);
      VisibleClosed(w, s);
      HeadReadSafe(w, s, VisibleAbove(w, s));
      SearchFinds(w, Tick(s), VisibleAbove(w, s), w.heads(s.clock));
      forall h: Height | From(s.last) < h && Visible(w, s, h) ensures h in VisibleAbove(w, s) {
      }
    }
  }

  lemma QueryUnfold(w: World, s: State)
    requires !w.down(s.clock, HeadCall)
    ensures Query(w, s) == Run(w, Tick(s), Start(w.heads(s.clock), s.last))
  {
    assert Run(w, s, Begin) == Run(w, Tick(s), GotHead(w.heads(s.clock)));
  }

  lemma QueryHeadDown(w: World, s: State)
    requires w.down(s.clock, HeadCall)
    ensures Query(w, s) == (Tick(s), Err(HeadCall))
  {
    RunDone(w, Tick(s), Err(HeadCall));
    assert Run(w, s, Begin) == Run(w, Tick(s), Done(Err(HeadCall)));
  }

  /** With no stale list above the start, the answer brackets the true frontier. */
  lemma QueryBrackets(w: World, s: State)
    requires Settled(w) && DownwardClosed(w) && Quiet(w, s) && NoStaleAbove(w, s)
    requires From(s.last) <= w.heads(s.clock)
    ensures
      var (s', result) := Query(w, s);
      result.Ok? ==>
        Brackets(w, s.clock, s'.clock, w.heads(s.clock), result.value) && From(s.last) <= result.value
  {
    hide Query, Settled, DownwardClosed, Finalized, Inv, Stale;
    QueryFinds(w, s);
    forall h: Height | Finalized(w, s.clock, h) ensures Visible(w, s, h) {
    }
  }

  /** Every search leaves the state fit for the next one, errors or not. */
  lemma QueryQuiet(w: World, s: State, low: iset<Height>)
    requires Settled(w) && DownwardClosed(w) && Inv(w, s, low) && StoredOk(w, s)
    ensures
      var (s', result) := Query(w, s);
      && Inv(w, s', low) && StoredOk(w, s') && s.last <= s'.last && s.clock <= s'.clock
      && (result.Ok? ==> Floor(w, s'.clock, result.value))
  {
    RunSafe(w, s, Begin, low);
  }

  // ----- no errors -----

  lemma {:induction false} UpAlone(w: World, s: State, h: Height, m: Micro)
    requires UpFrom(w, s.clock) && (m.Answered? ==> m.answer.Ok?)
    ensures Alone(w, s, h, m).1.Ok?
    decreases Left(m)
  {
    hide Decides, Total, Insert, FpsCached;
    if !m.Answered? {
      var (s1, m1) := Step(w, s, h, m);
      StepShrinks(w, s, h, m);
      StepFrame(w, s, h, m);
      UpAlone(w, s1, h, m1);
    }
  }

  lemma UpAnswers(w: World, s: State, h: Height)
    requires UpFrom(w, s.clock)
    ensures ByNumber(w, s, h).1.Ok?
  {
    hide Answer, Alone;
    AloneIsAnswer(w, s, h);
    UpAlone(w, s, h, ReadFinal);
  }

  ghost predicate Fails(c: Ctl) {
    match c
    case Commit(_, rest) => Fails(rest)
    case Done(result) => result.Err?
    case _ => false
  }

  lemma SplitSucceeds(from: Height, to: Height)
    ensures !Fails(Split(from, to))
  {
  }

  lemma ResumeSucceeds(c: Ctl, answer: Outcome<bool>)
    requires Asking(c) && WellFormed(c) && answer.Ok?
    ensures !Fails(Resume(c, answer))
  {
    hide Split;
    match c
    case Top(head, from) => SplitSucceeds(from, head);
    case Jump(head, from) => SplitSucceeds(from, head);
    case Next(_, _) =>
    case Try(head, from) =>
      SplitSucceeds(from, head);
      SplitSucceeds(from + 1, head);
    case Bisect(from, to) =>
      MidHalves(from, to);
      SplitSucceeds(from, Mid(from, to));
      SplitSucceeds(Mid(from, to), to);
  }

  lemma StartSucceeds(head: Height, last: Height)
    ensures !Fails(Start(head, last))
  {
    hide Split;
    SplitSucceeds(From(last), head);
  }

  /** With no query error the search gives an answer. */
  lemma {:induction false} UpRuns(w: World, s: State, c: Ctl)
    requires UpFrom(w, s.clock) && WellFormed(c) && !Fails(c)
    ensures Run(w, s, c).1.Ok?
    decreases Phase(c), Width(c), Depth(c)
  {
    hide ByNumber, Start, Resume;
    if !c.Done? {
      if Asking(c) {
        UpAnswers(w, s, Target(c));
        ProbeFrame(w, s, Target(c));
        ResumeSucceeds(c, ByNumber(w, s, Target(c)).1);
      } else if c.GotHead? {
        StartSucceeds(c.head, s.last);
      }
      var (s1, c1) := Advance(w, s, c);
      UpRuns(w, s1, c1);
    }
  }

  /** Whether a probe tells the truth depends on one thing: its height's cached list is not stale. */
  lemma ProbeExact(w: World, s: State, h: Height)
    requires Settled(w) && UpFrom(w, s.clock) && Frozen(w, s.clock) && Quiet(w, s) && Linked(w, s)
    ensures ByNumber(w, s, h).1 == Ok(Finalized(w, s.clock, h)) <==> !Stale(w, s, h)
  {
    UpAnswers(w, s, h);
    var (s', answer) := ByNumber(w, s, h);
    ProbeFrame(w, s, h);
    if Stale(w, s, h) {
      StaleAnswersNo(w, s, h);
    } else {
      var low: iset<Height> := if Finalized(w, s.clock, h) then iset{h} else iset{};
      QuietKnows(w, s, low);
      ProbeSound(w, s, h, low);
      assert VotesAt(w, s'.clock, h) == VotesAt(w, s.clock, h);
    }
  }

  /** A lookup that can only fail or answer `truth`. */
  ghost predicate FailsOrIs<T>(w: World, t: nat, answer: Outcome<T>, truth: T) {
    (answer.Ok? ==> answer.value == truth) && (UpFrom(w, t) ==> answer.Ok?)
  }

  lemma FpsFrame(w: World, s: State)
    ensures
      var s' := AllFpBtcPubKeys(w, s).0;
      s'.btc == s.btc && s'.power == s.power && s'.votes == s.votes && s'.finalized == s.finalized &&
      s.clock <= s'.clock
  {
    hide FpsCached, FetchFpBtcPubKeys;
    FetchFrame(w, Tick(s));
  }

  lemma FetchFrame(w: World, s: State)
    ensures
      var s' := FetchFpBtcPubKeys(w, s).0;
      s'.btc == s.btc && s'.power == s.power && s'.votes == s.votes && s'.finalized == s.finalized &&
      s.clock <= s'.clock
  {
  }

  lemma TrueFps(w: World, s: State)
    requires FixedFps(w) && (|s.fps| > 0 ==> s.fps == w.fps(0))
    ensures FailsOrIs(w, s.clock, AllFpBtcPubKeys(w, s).1, w.fps(0))
  {
    hide KeepFps;
  }

  lemma TrueBtc(w: World, s: State, h: Height)
    requires FixedBtc(w)
    requires Block(w, h).hash in s.btc ==> s.btc[Block(w, h).hash] == BtcAt(w, h)
    ensures
      var (s', btc) := BtcHeight(w, s, Block(w, h));
      FailsOrIs(w, s.clock, btc, BtcAt(w, h)) && s'.power == s.power && s'.votes == s.votes && s.clock <= s'.clock
  {
    hide Total, Insert;
  }

  lemma TrueMulti(w: World, s: State, h: Height)
    requires FixedHistory(w)
    requires BtcAt(w, h) in s.power ==> s.power[BtcAt(w, h)] == PowerAt(w, h)
    ensures
      var (s', power) := MultiFpPower(w, s, w.fps(0), BtcAt(w, h));
      FailsOrIs(w, s.clock, power, PowerAt(w, h)) && s'.votes == s.votes
  {
    hide Total, Insert;
  }

  /** The power lookup fails or answers the true power, and leaves the vote cache alone. */
  lemma TruePower(w: World, s: State, h: Height)
    requires Settled(w) && Coherent(w, s)
    ensures
      var (s', power) := AllPkPower(w, s, Block(w, h));
      FailsOrIs(w, s.clock, power, PowerAt(w, h)) && s'.votes == s.votes
  {
    hide Total, Insert, OneChain, GrowingVotes, FixedFps, FixedBtc, FixedHistory, CoherentVotes;
    hide Finalized, AllFpBtcPubKeys, BtcHeight, MultiFpPower;
    TrueFps(w, s);
    FpsFrame(w, s);
    var s1 := AllFpBtcPubKeys(w, s).0;
    if AllFpBtcPubKeys(w, s).1.Ok? {
      TrueBtc(w, s1, h);
      var (s2, btc) := BtcHeight(w, s1, Block(w, h));
      if btc.Ok? {
        TrueMulti(w, s2, h);
      }
    }
  }

  lemma TrueBlock(w: World, s: State, h: Height)
    requires Settled(w) && Inv(w, s, iset{})
    ensures
      var (s', header) := BlockByNumber(w, s, h);
      FailsOrIs(w, s.clock, header, w.headers(0, h)) && s'.votes == s.votes && s.clock <= s'.clock
      && Coherent(w, s')
  {
    hide Coherent, Known, FixedPower, GrowingVotes, Insert;
    AloneBlockCoherent(w, s, h);
    CoherentBlock(w, s, h);
  }

  lemma CoherentBlock(w: World, s: State, h: Height)
    requires Inv(w, s, iset{})
    ensures h in s.blocks ==> s.blocks[h] == w.headers(0, h)
  {
  }

  lemma AloneBlockCoherent(w: World, s: State, h: Height)
    requires Settled(w) && Inv(w, s, iset{})
    ensures Coherent(w, BlockByNumber(w, s, h).0)
  {
    hide Passes, Block, BtcAt, Insert;
    TimePasses(w, s, s.clock + 1, iset{});
    InsertBlockSafe(w, Tick(s), h, iset{});
  }

  /** A stale list makes the probe say "not finalized", whatever else is cached. */
  lemma StaleAnswersNo(w: World, s: State, h: Height)
    requires Settled(w) && UpFrom(w, s.clock) && Inv(w, s, iset{})
    requires Block(w, h).hash in s.votes && !Passes(w, h, s.votes[Block(w, h).hash]) && h !in s.finalized
    ensures ByNumber(w, s, h).1 == Ok(false)
  {
    hide Decides, Total, BlockByNumber, AllPkPower, Settled, Inv, Coherent, Block, PowerAt;
    TrueBlock(w, s, h);
    AskIsBlock(w, h);
    var s1 := BlockByNumber(w, s, h).0;
    TruePower(w, s1, h);
    TotalZeroPasses(PowerAt(w, h), s.votes[Block(w, h).hash]);
  }

  lemma TotalZeroPasses(power: PowerMap, list: VoteList)
    ensures Total(power) % MOD == 0 ==> Decides(power, list)
  {
  }
}
