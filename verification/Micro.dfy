/** A finality probe cut at every lock and every remote call: the smallest pieces that goroutines
    interleave. `h` is the height probed. */
module Micro {
  import opened Machine
  import opened Quorum
  import opened World
  import opened Lookups

  datatype Micro =
    | ReadFinal
    | ReadBlock
    | FetchBlock
    | WriteBlock(header: Header)
    | ReadFps(q: QueryBlock)
    | FetchConsumer(q: QueryBlock)
    | FetchFps(q: QueryBlock)
    | WriteFps(q: QueryBlock, pks: seq<FpKey>)
    | ReadBtc(q: QueryBlock, pks: seq<FpKey>)
    | FetchBtc(q: QueryBlock, pks: seq<FpKey>)
    | WriteBtc(q: QueryBlock, pks: seq<FpKey>, btc: U32)
    | ReadPower(q: QueryBlock, pks: seq<FpKey>, btc: U32)
    | FetchPower(q: QueryBlock, pks: seq<FpKey>, btc: U32)
    | WritePower(q: QueryBlock, btc: U32, power: PowerMap)
    | ReadVotes(q: QueryBlock, power: PowerMap)
    | FetchVotes(q: QueryBlock, power: PowerMap)
    | WriteVotes(q: QueryBlock, power: PowerMap, list: VoteList)
    | WriteFinal
    | Answered(answer: Outcome<bool>)

  ghost function AfterPower(q: QueryBlock, power: PowerMap): Micro {
    if Total(power) % MOD == 0 then WriteFinal else ReadVotes(q, power)
  }

  ghost function AfterVotes(power: PowerMap, list: VoteList): Micro {
    if Decides(power, list) then WriteFinal else Answered(Ok(false))
  }

  function Failed(call: Fault): Micro {
    Answered(Err(call))
  }

  function Left(m: Micro): nat {
    match m
    case ReadFinal => 18 case ReadBlock => 17 case FetchBlock => 16 case WriteBlock(_) => 15
    case ReadFps(_) => 14 case FetchConsumer(_) => 13 case FetchFps(_) => 12 case WriteFps(_, _) => 11
    case ReadBtc(_, _) => 10 case FetchBtc(_, _) => 9 case WriteBtc(_, _, _) => 8
    case ReadPower(_, _, _) => 7 case FetchPower(_, _, _) => 6 case WritePower(_, _, _) => 5
    case ReadVotes(_, _) => 4 case FetchVotes(_, _) => 3 case WriteVotes(_, _, _) => 2
    case WriteFinal => 1 case Answered(_) => 0
  }

  predicate Reads(m: Micro) {
    m.ReadFinal? || m.ReadBlock? || m.ReadFps? || m.ReadBtc? || m.ReadPower? || m.ReadVotes?
  }

  predicate Fetches(m: Micro) {
    m.FetchBlock? || m.FetchConsumer? || m.FetchFps? || m.FetchBtc? || m.FetchPower? || m.FetchVotes?
  }

  predicate Writes(m: Micro) {
    m.WriteBlock? || m.WriteFps? || m.WriteBtc? || m.WritePower? || m.WriteVotes? || m.WriteFinal?
  }

  /** Under the read lock: look the key up. */
  ghost function Read(w: World, s: State, h: Height, m: Micro): Micro
    requires Reads(m)
  {
    match m
    case ReadFinal => if h in s.finalized then Answered(Ok(true)) else ReadBlock
    case ReadBlock => if h in s.blocks then ReadFps(Ask(s.blocks[h])) else FetchBlock
    case ReadFps(q) => if FpsCached(w, s) then ReadBtc(q, s.fps) else FetchConsumer(q)
    case ReadBtc(q, pks) => if q.hash in s.btc then ReadPower(q, pks, s.btc[q.hash]) else FetchBtc(q, pks)
    case ReadPower(q, pks, btc) => if btc in s.power then AfterPower(q, s.power[btc]) else FetchPower(q, pks, btc)
    case ReadVotes(q, power) => if q.hash in s.votes then AfterVotes(power, s.votes[q.hash]) else FetchVotes(q, power)
  }

  /** Without a lock: the remote call made at tick `t`. */
  function Fetch(w: World, t: nat, h: Height, m: Micro): Micro
    requires Fetches(m)
  {
    match m
    case FetchBlock => if w.down(t, BlockCall) then Failed(BlockCall) else WriteBlock(w.headers(t, h))
    case FetchConsumer(q) => if w.down(t, ConsumerIdCall) then Failed(ConsumerIdCall) else FetchFps(q)
    case FetchFps(q) => if w.down(t, FpKeysCall) then Failed(FpKeysCall) else WriteFps(q, w.fps(t))
    case FetchBtc(q, pks) => if w.down(t, BtcCall) then Failed(BtcCall) else WriteBtc(q, pks, w.btcHeights(t, q.time))
    case FetchPower(q, pks, btc) =>
      if w.down(t, PowerCall) then Failed(PowerCall) else WritePower(q, btc, w.powers(t, pks, btc))
    case FetchVotes(q, power) => if w.down(t, VotesCall) then Failed(VotesCall) else WriteVotes(q, power, w.votes(t, q))
  }

  /** Under the write lock: store what was fetched, possibly long ago. */
  ghost function Write(w: World, s: State, h: Height, m: Micro): (State, Micro)
    requires Writes(m)
  {
    match m
    case WriteBlock(header) => (s.(blocks := Insert(s.blocks, h, header)), ReadFps(Ask(header)))
    case WriteFps(q, pks) => (KeepFps(w, s, pks), ReadBtc(q, pks))
    case WriteBtc(q, pks, btc) => (s.(btc := Insert(s.btc, q.hash, btc)), ReadPower(q, pks, btc))
    case WritePower(q, btc, power) => (s.(power := Insert(s.power, btc, power)), AfterPower(q, power))
    case WriteVotes(q, power, list) => (s.(votes := Insert(s.votes, q.hash, list)), AfterVotes(power, list))
    case WriteFinal => (s.(finalized := Insert(s.finalized, h, true)), Answered(Ok(true)))
  }

  ghost function Step(w: World, s: State, h: Height, m: Micro): (State, Micro) {
    if Reads(m) then (s, Read(w, s, h, m))
    else if Fetches(m) then (Tick(s), Fetch(w, s.clock, h, m))
    else if Writes(m) then Write(w, s, h, m)
    else (s, m)
  }

  lemma StepShrinks(w: World, s: State, h: Height, m: Micro)
    ensures m.Answered? || Left(Step(w, s, h, m).1) < Left(m)
  {
    hide Decides, Total, Insert, FpsCached;
  }

  /** A goroutine left alone until its probe is answered. */
  ghost function Alone(w: World, s: State, h: Height, m: Micro): (State, Outcome<bool>)
    decreases Left(m)
  {
    if m.Answered? then (s, m.answer)
    else
      StepShrinks(w, s, h, m);
      var (s', m') := Step(w, s, h, m);
      Alone(w, s', h, m')
  }

  // ----- the pieces, run alone, are the sequential lookups -----

  lemma AloneBlock(w: World, s: State, h: Height)
    ensures
      var (s', r) := BlockByNumber(w, s, h);
      Alone(w, s, h, ReadBlock) == if r.Err? then (s', Err(r.fault)) else Alone(w, s', h, ReadFps(Ask(r.value)))
  {
    if h !in s.blocks {
      assert Alone(w, s, h, ReadBlock) == Alone(w, s, h, FetchBlock);
      var (s1, m) := Step(w, s, h, FetchBlock);
      assert Alone(w, s, h, FetchBlock) == Alone(w, s1, h, m);
    }
  }

  lemma AloneFps(w: World, s: State, h: Height, q: QueryBlock)
    ensures
      var (s', r) := AllFpBtcPubKeys(w, s);
      Alone(w, s, h, ReadFps(q)) == if r.Err? then (s', Err(r.fault)) else Alone(w, s', h, ReadBtc(q, r.value))
  {
    if !FpsCached(w, s) {
      assert Alone(w, s, h, ReadFps(q)) == Alone(w, s, h, FetchConsumer(q));
      var (s1, m) := Step(w, s, h, FetchConsumer(q));
      assert Alone(w, s, h, FetchConsumer(q)) == Alone(w, s1, h, m);
      if m.FetchFps? {
        var (s2, m2) := Step(w, s1, h, m);
        assert Alone(w, s1, h, m) == Alone(w, s2, h, m2);
      }
    }
  }

  lemma AloneBtc(w: World, s: State, h: Height, q: QueryBlock, pks: seq<FpKey>)
    ensures
      var (s', r) := BtcHeight(w, s, q);
      Alone(w, s, h, ReadBtc(q, pks)) ==
        if r.Err? then (s', Err(r.fault)) else Alone(w, s', h, ReadPower(q, pks, r.value))
  {
    if q.hash !in s.btc {
      assert Alone(w, s, h, ReadBtc(q, pks)) == Alone(w, s, h, FetchBtc(q, pks));
      var (s1, m) := Step(w, s, h, FetchBtc(q, pks));
      assert Alone(w, s, h, FetchBtc(q, pks)) == Alone(w, s1, h, m);
    }
  }

  lemma AlonePower(w: World, s: State, h: Height, q: QueryBlock, pks: seq<FpKey>, btc: U32)
    ensures
      var (s', r) := MultiFpPower(w, s, pks, btc);
      Alone(w, s, h, ReadPower(q, pks, btc)) ==
        if r.Err? then (s', Err(r.fault)) else Alone(w, s', h, AfterPower(q, r.value))
  {
    if btc !in s.power {
      assert Alone(w, s, h, ReadPower(q, pks, btc)) == Alone(w, s, h, FetchPower(q, pks, btc));
      var (s1, m) := Step(w, s, h, FetchPower(q, pks, btc));
      assert Alone(w, s, h, FetchPower(q, pks, btc)) == Alone(w, s1, h, m);
    }
  }

  lemma AloneVotes(w: World, s: State, h: Height, q: QueryBlock, power: PowerMap)
    ensures
      var (s', r) := VotedProviders(w, s, q);
      Alone(w, s, h, ReadVotes(q, power)) ==
        if r.Err? then (s', Err(r.fault)) else Alone(w, s', h, AfterVotes(power, r.value))
  {
    if q.hash !in s.votes {
      assert Alone(w, s, h, ReadVotes(q, power)) == Alone(w, s, h, FetchVotes(q, power));
      var (s1, m) := Step(w, s, h, FetchVotes(q, power));
      assert Alone(w, s, h, FetchVotes(q, power)) == Alone(w, s1, h, m);
    }
  }

  lemma AloneWriteFinal(w: World, s: State, h: Height)
    ensures Alone(w, s, h, WriteFinal) == (s.(finalized := Insert(s.finalized, h, true)), Ok(true))
  {
  }

  lemma AloneIsBlockFinalized(w: World, s: State, h: Height, q: QueryBlock)
    ensures
      var (s', r) := IsBlockFinalized(w, s, q);
      Alone(w, s, h, ReadFps(q)) == (if r == Ok(true) then s'.(finalized := Insert(s'.finalized, h, true)) else s', r)
  {
    hide Insert, Decides, Total, AllFpBtcPubKeys, BtcHeight, MultiFpPower, VotedProviders;
    AloneFps(w, s, h, q);
    var (s1, pks) := AllFpBtcPubKeys(w, s);
    if pks.Ok? {
      AloneBtc(w, s1, h, q, pks.value);
      var (s2, btc) := BtcHeight(w, s1, q);
      if btc.Ok? {
        AlonePower(w, s2, h, q, pks.value, btc.value);
        var (s3, power) := MultiFpPower(w, s2, pks.value, btc.value);
        if power.Ok? {
          AloneWriteFinal(w, s3, h);
          if Total(power.value) % MOD != 0 {
            AloneVotes(w, s3, h, q, power.value);
            var (s4, list) := VotedProviders(w, s3, q);
            AloneWriteFinal(w, s4, h);
          }
        }
      }
    }
  }

  /** Run without interruption the pieces are `queryFinalizedBlockInBabylonByNumber` itself. */
  lemma AloneIsAnswer(w: World, s: State, h: Height)
    ensures Alone(w, s, h, ReadFinal) == Answer(w, s, h)
  {
    if h !in s.finalized {
      assert Alone(w, s, h, ReadFinal) == Alone(w, s, h, ReadBlock);
      AloneBlock(w, s, h);
      var (s1, header) := BlockByNumber(w, s, h);
      if header.Ok? {
        AloneIsBlockFinalized(w, s1, h, Ask(header.value));
      }
    }
  }

  // ----- safety of one piece, whoever else runs in between -----

  ghost predicate GoodList(w: World, t: nat, h: Height, list: VoteList, low: iset<Height>) {
    && Distinct(list)
    && Members(list) <= Members(VotesAt(w, t, h))
    && (h in low ==> Passes(w, h, list))
  }

  /** What a goroutine in the middle of a probe holds in its local variables. */
  ghost predicate Holds(w: World, t: nat, h: Height, m: Micro, low: iset<Height>) {
    match m
    case ReadFinal | ReadBlock | FetchBlock => true
    case WriteBlock(header) => header == w.headers(0, h)
    case ReadFps(q) => q == Block(w, h)
    case FetchConsumer(q) => q == Block(w, h)
    case FetchFps(q) => q == Block(w, h)
    case WriteFps(q, pks) => q == Block(w, h) && pks == w.fps(0)
    case ReadBtc(q, pks) => q == Block(w, h) && pks == w.fps(0)
    case FetchBtc(q, pks) => q == Block(w, h) && pks == w.fps(0)
    case WriteBtc(q, pks, btc) => q == Block(w, h) && pks == w.fps(0) && btc == BtcAt(w, h)
    case ReadPower(q, pks, btc) => q == Block(w, h) && pks == w.fps(0) && btc == BtcAt(w, h)
    case FetchPower(q, pks, btc) => q == Block(w, h) && pks == w.fps(0) && btc == BtcAt(w, h)
    case WritePower(q, btc, power) => q == Block(w, h) && btc == BtcAt(w, h) && power == PowerAt(w, h)
    case ReadVotes(q, power) => q == Block(w, h) && power == PowerAt(w, h)
    case FetchVotes(q, power) => q == Block(w, h) && power == PowerAt(w, h)
    case WriteVotes(q, power, list) => q == Block(w, h) && power == PowerAt(w, h) && GoodList(w, t, h, list, low)
    case WriteFinal => Finalized(w, t, h)
    case Answered(answer) => Sound(w, t, h, answer, low)
  }

  /** Time passing, whoever spends it, breaks nothing. */
  lemma TimePasses(w: World, s: State, u: nat, low: iset<Height>)
    requires Settled(w) && Inv(w, s, low) && s.clock <= u
    ensures Inv(w, s.(clock := u), low)
  {
    forall h: Height ensures Finalized(w, s.clock, h) ==> Finalized(w, u, h) {
      FinalityPersists(w, s.clock, u, h);
    }
  }

  lemma HoldsLater(w: World, t: nat, u: nat, h: Height, m: Micro, low: iset<Height>)
    requires Settled(w) && t <= u && Holds(w, t, h, m, low)
    ensures Holds(w, u, h, m, low)
  {
    FinalityPersists(w, t, u, h);
  }

  lemma FetchVotesSafe(w: World, s: State, h: Height, low: iset<Height>)
    requires Settled(w) && Known(w, s, low)
    ensures GoodList(w, s.clock + 1, h, VotesAt(w, s.clock, h), low)
  {
    if h in low {
      assert Finalized(w, s.clock, h);
    }
  }

  lemma FetchSafe(w: World, s: State, h: Height, m: Micro, low: iset<Height>)
    requires Settled(w) && Known(w, s, low) && Holds(w, s.clock, h, m, low) && Fetches(m)
    ensures Holds(w, s.clock + 1, h, Fetch(w, s.clock, h, m), low)
  {
    if m.FetchVotes? {
      FetchVotesSafe(w, s, h, low);
    }
  }

  lemma InsertVotesSafe(w: World, s: State, h: Height, list: VoteList, low: iset<Height>)
    requires Settled(w) && Inv(w, s, low) && GoodList(w, s.clock, h, list, low)
    ensures Inv(w, s.(votes := Insert(s.votes, Block(w, h).hash, list)), low)
  {
    var s' := s.(votes := Insert(s.votes, Block(w, h).hash, list));
    forall g: Height | Block(w, g).hash in s'.votes && g != h
      ensures Block(w, g).hash in s.votes && s'.votes[Block(w, g).hash] == s.votes[Block(w, g).hash]
    {
      if Block(w, g).hash == Block(w, h).hash {
        KeysDiffer(w, g, h);
      }
    }
  }

  lemma InsertBtcSafe(w: World, s: State, h: Height, low: iset<Height>)
    requires Settled(w) && Inv(w, s, low)
    ensures Inv(w, s.(btc := Insert(s.btc, Block(w, h).hash, BtcAt(w, h))), low)
  {
    var s' := s.(btc := Insert(s.btc, Block(w, h).hash, BtcAt(w, h)));
    forall g: Height | Block(w, g).hash in s'.btc ensures s'.btc[Block(w, g).hash] == BtcAt(w, g) {
      if Block(w, g).hash == Block(w, h).hash {
        KeysDiffer(w, g, h);
      }
    }
  }

  lemma AfterVotesSafe(w: World, t: nat, h: Height, list: VoteList, low: iset<Height>)
    requires Settled(w) && GoodList(w, t, h, list, low)
    ensures Holds(w, t, h, AfterVotes(PowerAt(w, h), list), low)
  {
    OlderListIsSound(w, h, list, t);
  }

  lemma AfterPowerSafe(w: World, t: nat, h: Height, low: iset<Height>)
    requires Settled(w)
    ensures Holds(w, t, h, AfterPower(Block(w, h), PowerAt(w, h)), low)
  {
  }

  lemma ReadSafe(w: World, s: State, h: Height, m: Micro, low: iset<Height>)
    requires Settled(w) && Inv(w, s, low) && Holds(w, s.clock, h, m, low) && Reads(m)
    ensures Holds(w, s.clock, h, Read(w, s, h, m), low)
  {
    if m.ReadVotes? {
      if m.q.hash in s.votes {
        AfterVotesSafe(w, s.clock, h, s.votes[m.q.hash], low);
      }
    } else if m.ReadPower? {
      AfterPowerSafe(w, s.clock, h, low);
    }
  }

  lemma InsertBlockSafe(w: World, s: State, h: Height, low: iset<Height>)
    requires Inv(w, s, low)
    ensures Inv(w, s.(blocks := Insert(s.blocks, h, w.headers(0, h))), low)
    ensures Inv(w, KeepFps(w, s, w.fps(0)), low)
  {
    hide Finalized, Passes, Block, BtcAt;
  }

  lemma InsertPowerSafe(w: World, s: State, h: Height, low: iset<Height>)
    requires Inv(w, s, low)
    ensures Inv(w, s.(power := Insert(s.power, BtcAt(w, h), PowerAt(w, h))), low)
  {
    hide Finalized, Passes, Block, BtcAt;
  }

  lemma InsertFinalSafe(w: World, s: State, h: Height, low: iset<Height>)
    requires Inv(w, s, low) && Finalized(w, s.clock, h)
    ensures Inv(w, s.(finalized := Insert(s.finalized, h, true)), low)
  {
    hide Finalized, Passes, Block, BtcAt;
  }

  lemma WriteSafe(w: World, s: State, h: Height, m: Micro, low: iset<Height>)
    requires Settled(w) && Inv(w, s, low) && Holds(w, s.clock, h, m, low) && Writes(m)
    ensures var (s', m') := Write(w, s, h, m);
            s'.clock == s.clock && Inv(w, s', low) && Holds(w, s.clock, h, m', low)
  {
    hide Inv, Settled, Insert, GoodList, Finalized, AfterVotes, AfterPower, Block;
    match m
    case WriteBtc(_, _, _) => InsertBtcSafe(w, s, h, low);
    case WriteVotes(_, _, list) =>
      InsertVotesSafe(w, s, h, list, low);
      AfterVotesSafe(w, s.clock, h, list, low);
    case WritePower(_, _, _) =>
      AfterPowerSafe(w, s.clock, h, low);
      InsertPowerSafe(w, s, h, low);
    case WriteFinal => InsertFinalSafe(w, s, h, low);
    case _ =>
      AskIsBlock(w, h);
      InsertBlockSafe(w, s, h, low);
  }

  lemma AskIsBlock(w: World, h: Height)
    ensures Ask(w.headers(0, h)) == Block(w, h)
  {
  }

  /** One atomic piece keeps the shared caches coherent and the goroutine's locals right. */
  lemma StepSafe(w: World, s: State, h: Height, m: Micro, low: iset<Height>)
    requires Settled(w) && Inv(w, s, low) && Holds(w, s.clock, h, m, low)
    ensures var (s', m') := Step(w, s, h, m); Inv(w, s', low) && Holds(w, s'.clock, h, m', low)
  {
    hide Settled, Inv, Holds, Read, Fetch, Write;
    assert Known(w, s, low) by { InvKnown(w, s, low); }
    if Reads(m) {
      ReadSafe(w, s, h, m, low);
    } else if Fetches(m) {
      FetchSafe(w, s, h, m, low);
      TimePasses(w, s, s.clock + 1, low);
    } else if Writes(m) {
      WriteSafe(w, s, h, m, low);
    }
  }

  lemma InvKnown(w: World, s: State, low: iset<Height>)
    requires Inv(w, s, low)
    ensures Known(w, s, low)
  {
  }

  /** Pieces touch only the caches and the clock. */
  lemma StepFrame(w: World, s: State, h: Height, m: Micro)
    ensures var (s', m') := Step(w, s, h, m);
            s.clock <= s'.clock && s'.last == s.last && s'.log == s.log
  {
  }

  /** The flush rule bounds every cache, whatever the remote services answer. */
  lemma StepBounded(w: World, s: State, h: Height, m: Micro)
    requires Bounded(s)
    ensures Bounded(Step(w, s, h, m).0)
  {
    hide Insert, Read, Fetch, AfterVotes, AfterPower, Write;
    if Writes(m) {
      WriteBounded(w, s, h, m);
    }
  }

  lemma WriteBounded(w: World, s: State, h: Height, m: Micro)
    requires Bounded(s) && Writes(m)
    ensures Bounded(Write(w, s, h, m).0)
  {
    hide Insert, AfterVotes, AfterPower, KeepFps;
    match m
    case WriteBlock(header) => InsertBounded(s.blocks, h, header);
    case WriteBtc(q, pks, btc) => InsertBounded(s.btc, q.hash, btc);
    case WritePower(q, btc, power) => InsertBounded(s.power, btc, power);
    case WriteVotes(q, power, list) => InsertBounded(s.votes, q.hash, list);
    case WriteFinal => InsertBounded(s.finalized, h, true);
    case WriteFps(q, pks) => KeepFpsBounded(w, s, pks);
  }

  lemma KeepFpsBounded(w: World, s: State, pks: seq<FpKey>)
    requires Bounded(s)
    ensures Bounded(KeepFps(w, s, pks))
  {
  }

  lemma {:induction false} AloneSafe(w: World, s: State, h: Height, m: Micro, low: iset<Height>)
    requires Settled(w) && Inv(w, s, low) && Holds(w, s.clock, h, m, low)
    ensures var (s', answer) := Alone(w, s, h, m); Inv(w, s', low) && Sound(w, s'.clock, h, answer, low)
    decreases Left(m)
  {
    hide Step, Settled, Inv;
    if !m.Answered? {
      StepSafe(w, s, h, m, low);
      var (s1, m1) := Step(w, s, h, m);
      StepShrinks(w, s, h, m);
      AloneSafe(w, s1, h, m1, low);
    }
  }

  lemma {:induction false} AloneFrame(w: World, s: State, h: Height, m: Micro)
    ensures var s' := Alone(w, s, h, m).0; s.clock <= s'.clock && s'.last == s.last && s'.log == s.log
    decreases Left(m)
  {
    hide Step;
    if !m.Answered? {
      StepFrame(w, s, h, m);
      var (s1, m1) := Step(w, s, h, m);
      StepShrinks(w, s, h, m);
      AloneFrame(w, s1, h, m1);
    }
  }

  lemma {:induction false} AloneBounded(w: World, s: State, h: Height, m: Micro)
    requires Bounded(s)
    ensures Bounded(Alone(w, s, h, m).0)
    decreases Left(m)
  {
    hide Step, Bounded;
    if !m.Answered? {
      StepBounded(w, s, h, m);
      var (s1, m1) := Step(w, s, h, m);
      StepShrinks(w, s, h, m);
      AloneBounded(w, s1, h, m1);
    }
  }

  // ----- the sequential probe -----

  lemma RecordSafe(w: World, s: State, h: Height, answer: Outcome<bool>, low: iset<Height>)
    requires Inv(w, s, low)
    ensures Inv(w, Record(s, h, answer), low)
  {
  }

  /** A cached probe agrees with the uncached decision in the one direction a cache can promise. */
  lemma ProbeSound(w: World, s: State, h: Height, low: iset<Height>)
    requires Settled(w) && Inv(w, s, low)
    ensures var (s', answer) := ByNumber(w, s, h); Inv(w, s', low) && Sound(w, s'.clock, h, answer, low)
  {
    hide Inv, Settled, Answer;
    AloneIsAnswer(w, s, h);
    AloneSafe(w, s, h, ReadFinal, low);
    RecordSafe(w, Alone(w, s, h, ReadFinal).0, h, Alone(w, s, h, ReadFinal).1, low);
  }

  lemma LogLater(w: World, s: State, s': State, low: iset<Height>, since: nat)
    requires Settled(w) && LogSound(w, s, low, since) && s.log == s'.log && s.clock <= s'.clock
    ensures LogSound(w, s', low, since)
  {
    forall i | since <= i < |s'.log| ensures Sound(w, s'.clock, s'.log[i].height, s'.log[i].answer, low) {
      FinalityPersists(w, s.clock, s'.clock, s.log[i].height);
    }
  }

  lemma ProbeFrame(w: World, s: State, h: Height)
    ensures
      var (s', answer) := ByNumber(w, s, h);
      s.clock <= s'.clock && s'.last == s.last && s'.log == s.log + [Probe(h, answer)]
  {
    AloneIsAnswer(w, s, h);
    AloneFrame(w, s, h, ReadFinal);
  }

  lemma ProbeBounded(w: World, s: State, h: Height)
    requires Bounded(s)
    ensures Bounded(ByNumber(w, s, h).0)
  {
    AloneIsAnswer(w, s, h);
    AloneBounded(w, s, h, ReadFinal);
  }
}
