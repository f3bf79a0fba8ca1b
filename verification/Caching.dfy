/** When a lookup calls a remote service and when it answers from its cache, in any world and from any
    state: nothing here relies on what the services say. */
module Caching {
  import opened Machine
  import opened Quorum
  import opened World
  import opened Lookups
  import opened Micro
  import opened Bracketing

  // ----- the list of providers is good for 240 seconds -----

  ghost predicate FreshList(w: World, s: State) {
    |s.fps| > 0 && s.fpsAt.Some? && w.nanos(s.clock) - s.fpsAt.value <= 240_000_000_000
  }

  /** A list no older than 240 seconds that is not empty is answered without a call, and nothing else is;
      otherwise the list is what the service says at the last tick of this very call and is kept with the
      time, or the call fails and nothing is kept. */
  lemma FpsFreshness(w: World, s: State)
    ensures
      var (s', r) := AllFpBtcPubKeys(w, s);
      && (s'.clock == s.clock <==> FreshList(w, s))
      && (FreshList(w, s) ==> s' == s && r == Ok(s.fps))
      && (!FreshList(w, s) && r.Ok? ==>
            && s'.clock == s.clock + 2 && r == Ok(w.fps(s.clock + 1))
            && s' == s.(fps := r.value, fpsAt := Some(w.nanos(s'.clock)), clock := s'.clock))
      && (r.Err? ==> s' == s.(clock := s'.clock) && s.clock < s'.clock)
  {
  }

  /** Two calls, any time and any change of the services between them: the second answers the first one's
      list as long as that is fresh, and what the service says now as soon as it is not. */
  lemma FpsAskedAgain(w: World, s: State, later: nat)
    requires AllFpBtcPubKeys(w, s).1.Ok? && !FreshList(w, s) && s.clock + 2 <= later
    requires !w.down(later, ConsumerIdCall) && !w.down(later + 1, FpKeysCall)
    ensures
      var (list, age) := (w.fps(s.clock + 1), w.nanos(later) - w.nanos(s.clock + 2));
      AllFpBtcPubKeys(w, AllFpBtcPubKeys(w, s).0.(clock := later)).1 ==
        Ok(if list != [] && age <= 240_000_000_000 then list else w.fps(later + 1))
  {
    FpsFreshness(w, s);
    FpsFreshness(w, AllFpBtcPubKeys(w, s).0.(clock := later));
  }

  // ----- asked again -----

  /** What each lookup may change, and what it leaves in its cache when it answers. */
  lemma BlockFills(w: World, s: State, h: Height)
    ensures
      var (s', r) := BlockByNumber(w, s, h);
      && s' == s.(blocks := s'.blocks, clock := s'.clock)
      && (r.Ok? ==> h in s'.blocks && s'.blocks[h] == r.value)
  {
  }

  lemma FpsFills(w: World, s: State)
    ensures var s' := AllFpBtcPubKeys(w, s).0; s' == s.(fps := s'.fps, fpsAt := s'.fpsAt, clock := s'.clock)
  {
    hide AllFpBtcPubKeys;
    FpsFreshness(w, s);
  }

  lemma BtcFills(w: World, s: State, q: QueryBlock)
    ensures
      var (s', r) := BtcHeight(w, s, q);
      && s' == s.(btc := s'.btc, clock := s'.clock)
      && (r.Ok? ==> q.hash in s'.btc && s'.btc[q.hash] == r.value)
  {
  }

  lemma PowerFills(w: World, s: State, pks: seq<FpKey>, btc: U32)
    ensures
      var (s', r) := MultiFpPower(w, s, pks, btc);
      && s' == s.(power := s'.power, clock := s'.clock)
      && (r.Ok? ==> btc in s'.power && s'.power[btc] == r.value)
  {
  }

  lemma VotesFill(w: World, s: State, q: QueryBlock)
    ensures
      var (s', r) := VotedProviders(w, s, q);
      && s' == s.(votes := s'.votes, clock := s'.clock)
      && (r.Ok? ==> q.hash in s'.votes && s'.votes[q.hash] == r.value)
  {
  }

  lemma AllPkFills(w: World, s: State, q: QueryBlock)
    ensures
      var (s', r) := AllPkPower(w, s, q);
      && s' == s.(fps := s'.fps, fpsAt := s'.fpsAt, btc := s'.btc, power := s'.power, clock := s'.clock)
      && (r.Ok? ==> q.hash in s'.btc && s'.btc[q.hash] in s'.power && s'.power[s'.btc[q.hash]] == r.value)
  {
    hide AllFpBtcPubKeys, BtcHeight, MultiFpPower;
    FpsFills(w, s);
    var (s1, pks) := AllFpBtcPubKeys(w, s);
    if pks.Ok? {
      BtcFills(w, s1, q);
      var (s2, btc) := BtcHeight(w, s1, q);
      if btc.Ok? {
        PowerFills(w, s2, pks.value, btc.value);
      }
    }
  }

  /** A lookup that answered answers the same again, in any world, without a tick: the block by its
      number, the BTC height and the votes by the block's hash alone, the power by the BTC height alone. */
  lemma LookupsAgain(w: World, s: State, h: Height, q: QueryBlock, pks: seq<FpKey>, btc: U32,
                     other: World, q': QueryBlock, pks': seq<FpKey>)
    requires q'.hash == q.hash
    ensures
      && (var (s', r) := BlockByNumber(w, s, h); r.Ok? ==> BlockByNumber(other, s', h) == (s', r))
      && (var (s', r) := BtcHeight(w, s, q); r.Ok? ==> BtcHeight(other, s', q') == (s', r))
      && (var (s', r) := MultiFpPower(w, s, pks, btc); r.Ok? ==> MultiFpPower(other, s', pks', btc) == (s', r))
      && (var (s', r) := VotedProviders(w, s, q); r.Ok? ==> VotedProviders(other, s', q') == (s', r))
  {
    BlockFills(w, s, h);
    BtcFills(w, s, q);
    PowerFills(w, s, pks, btc);
    VotesFill(w, s, q);
  }

  lemma AllPkAgain(w: World, s: State, q: QueryBlock)
    requires FreshList(w, s) && q.hash in s.btc && s.btc[q.hash] in s.power
    ensures AllPkPower(w, s, q) == (s, Ok(s.power[s.btc[q.hash]]))
  {
    hide Insert;
  }

  /** A whole probe: "finalized" is answered again in any world, "not finalized" in any world whose clock
      leaves the provider list fresh; neither spends a tick or changes a cache. */
  lemma ProbeAgain(w: World, s: State, h: Height, other: World)
    ensures
      var (s', r) := ByNumber(w, s, h);
      r.Ok? && (r.value || FreshList(other, s')) ==> ByNumber(other, s', h) == (Record(s', h, r), r)
  {
    hide BlockByNumber, AllPkPower, VotedProviders, Total, Decides;
    var (s', r) := ByNumber(w, s, h);
    if h !in s.finalized && r == Ok(false) && FreshList(other, s') {
      var (s1, header) := BlockByNumber(w, s, h);
      BlockFills(w, s, h);
      var q := Ask(header.value);
      var (s2, power) := AllPkPower(w, s1, q);
      AllPkFills(w, s1, q);
      VotesFill(w, s2, q);
      var (s3, list) := VotedProviders(w, s2, q);
      assert Total(power.value) % MOD != 0 && s' == Record(s3, h, r);
      NotYetAgain(other, s', h);
    }
  }

  lemma NotYetAgain(w: World, s: State, h: Height)
    requires h !in s.finalized && FreshList(w, s) && h in s.blocks
    requires
      var q := Ask(s.blocks[h]);
      && q.hash in s.btc && s.btc[q.hash] in s.power && q.hash in s.votes
      && Total(s.power[s.btc[q.hash]]) % MOD != 0
      && !Decides(s.power[s.btc[q.hash]], s.votes[q.hash])
    ensures ByNumber(w, s, h) == (Record(s, h, Ok(false)), Ok(false))
  {
    hide AllPkPower, Total, Decides;
    AllPkAgain(w, s, Ask(s.blocks[h]));
  }

  // ----- what ends that -----

  /** Nothing, or one key that was not there; when the map held more than 4096 keys it is the only one. */
  ghost predicate OneMore<K(!new), V>(m: map<K, V>, m': map<K, V>) {
    m' == m ||
    exists k :: k in m' && k !in m && m' == if |m| > 4096 then map[k := m'[k]] else m[k := m'[k]]
  }

  lemma InsertOneMore<K(!new), V>(m: map<K, V>, k: K, v: V)
    requires k !in m
    ensures OneMore(m, Insert(m, k, v))
  {
    assert k in Insert(m, k, v);
  }

  lemma AllPkOneMore(w: World, s: State, q: QueryBlock)
    ensures var s' := AllPkPower(w, s, q).0; OneMore(s.btc, s'.btc) && OneMore(s.power, s'.power)
  {
    hide AllFpBtcPubKeys, Insert, OneMore;
    FpsFills(w, s);
    SameOneMore(s.btc);
    SameOneMore(s.power);
    var (s1, pks) := AllFpBtcPubKeys(w, s);
    if pks.Ok? {
      BtcOneMore(w, s1, q);
      BtcFills(w, s1, q);
      var (s2, btc) := BtcHeight(w, s1, q);
      if btc.Ok? {
        PowerFills(w, s2, pks.value, btc.value);
        PowerOneMore(w, s2, pks.value, btc.value);
      }
    }
  }

  lemma SameOneMore<K(!new), V>(m: map<K, V>)
    ensures OneMore(m, m)
  {
  }

  lemma BtcOneMore(w: World, s: State, q: QueryBlock)
    ensures OneMore(s.btc, BtcHeight(w, s, q).0.btc)
  {
    hide Insert, OneMore;
    SameOneMore(s.btc);
    if q.hash !in s.btc {
      InsertOneMore(s.btc, q.hash, w.btcHeights(s.clock, q.time));
    }
  }

  lemma PowerOneMore(w: World, s: State, pks: seq<FpKey>, btc: U32)
    ensures OneMore(s.power, MultiFpPower(w, s, pks, btc).0.power)
  {
    hide Insert, OneMore;
    SameOneMore(s.power);
    if btc !in s.power {
      InsertOneMore(s.power, btc, w.powers(s.clock, pks, btc));
    }
  }

  lemma VotesOneMore(w: World, s: State, q: QueryBlock)
    ensures OneMore(s.votes, VotedProviders(w, s, q).0.votes)
  {
    hide Insert, OneMore;
    SameOneMore(s.votes);
    if q.hash !in s.votes {
      InsertOneMore(s.votes, q.hash, w.votes(s.clock, q));
    }
  }

  lemma BlockOneMore(w: World, s: State, h: Height)
    ensures OneMore(s.blocks, BlockByNumber(w, s, h).0.blocks)
  {
    hide Insert, OneMore;
    SameOneMore(s.blocks);
    if h !in s.blocks {
      InsertOneMore(s.blocks, h, w.headers(s.clock, h));
    }
  }

  lemma JudgeOneMore(w: World, s: State, q: QueryBlock)
    ensures
      var s' := IsBlockFinalized(w, s, q).0;
      && s'.blocks == s.blocks && s'.finalized == s.finalized
      && OneMore(s.btc, s'.btc) && OneMore(s.power, s'.power) && OneMore(s.votes, s'.votes)
  {
    hide AllPkPower, VotedProviders, OneMore, Total, Decides;
    AllPkOneMore(w, s, q);
    AllPkFills(w, s, q);
    SameOneMore(s.votes);
    var (s1, power) := AllPkPower(w, s, q);
    VotesOneMore(w, s1, q);
    VotesFill(w, s1, q);
  }

  /** What a probe does to the five caches: a cached entry is never replaced, and only the insertion of
      another key into a map of more than 4096 removes it. */
  lemma ProbeOneMore(w: World, s: State, h: Height)
    ensures
      var s' := ByNumber(w, s, h).0;
      && OneMore(s.blocks, s'.blocks) && OneMore(s.btc, s'.btc) && OneMore(s.power, s'.power)
      && OneMore(s.votes, s'.votes) && OneMore(s.finalized, s'.finalized)
  {
    hide IsBlockFinalized, BlockByNumber, OneMore, Insert;
    SameOneMore(s.btc);
    SameOneMore(s.power);
    SameOneMore(s.votes);
    SameOneMore(s.blocks);
    SameOneMore(s.finalized);
    if h !in s.finalized {
      var (s1, header) := BlockByNumber(w, s, h);
      BlockFills(w, s, h);
      BlockOneMore(w, s, h);
      if header.Ok? {
        JudgeOneMore(w, s1, Ask(header.value));
        InsertOneMore(s.finalized, h, true);
      }
    }
  }

  // ----- failing calls -----

  lemma {:induction false} AloneFails(w: World, s: State, h: Height, m: Micro)
    requires m.Answered? && m.answer.Err? ==> s.clock > 0 && w.down(s.clock - 1, m.answer.fault)
    ensures
      var (s', answer) := Alone(w, s, h, m);
      answer.Err? ==> s'.clock > 0 && w.down(s'.clock - 1, answer.fault)
    decreases Left(m)
  {
    hide Decides, Total, Insert, FpsCached;
    if !m.Answered? {
      var (s1, m1) := Step(w, s, h, m);
      StepShrinks(w, s, h, m);
      AloneFails(w, s1, h, m1);
    }
  }

  /** A probe's error is that of the call it made last, which did fail: errors are neither invented, nor
      exchanged, nor followed by another call. */
  lemma ErrorsAreGenuine(w: World, s: State, h: Height)
    ensures
      var (s', answer) := ByNumber(w, s, h);
      answer.Err? ==> s'.clock > 0 && w.down(s'.clock - 1, answer.fault)
  {
    hide Alone, Answer;
    AloneIsAnswer(w, s, h);
    AloneFails(w, s, h, ReadFinal);
  }

  /** Everything a probe of `h` needs before the votes is cached. */
  ghost predicate PowerCached(w: World, s: State, h: Height) {
    && h in s.blocks && FreshList(w, s)
    && Ask(s.blocks[h]).hash in s.btc && s.btc[Ask(s.blocks[h]).hash] in s.power
  }

  /** With every service down a probe still answers exactly when its caches allow it: from the finalized
      cache, or with the power cached and either no power at all or the votes cached too. Otherwise it
      reports the first thing that is missing, in the order block, providers, BTC height, power, votes. */
  lemma ProbeInOutage(w: World, s: State, h: Height)
    requires forall call: Fault :: w.down(s.clock, call)
    ensures
      var (s', answer) := ByNumber(w, s, h);
      && (answer.Ok? <==>
            || h in s.finalized
            || (PowerCached(w, s, h) &&
                (Total(s.power[s.btc[Ask(s.blocks[h]).hash]]) % MOD == 0 || Ask(s.blocks[h]).hash in s.votes)))
      && (answer.Ok? ==> s'.clock == s.clock)
      && (answer.Err? ==>
            && s' == Record(Tick(s), h, answer)
            && (answer.fault == BlockCall <==> h !in s.blocks)
            && (answer.fault == ConsumerIdCall <==> h in s.blocks && !FreshList(w, s))
            && (answer.fault == VotesCall <==> PowerCached(w, s, h))
            && (answer.fault == BtcCall ==> Ask(s.blocks[h]).hash !in s.btc)
            && (answer.fault == PowerCall ==> Ask(s.blocks[h]).hash in s.btc)
            && answer.fault in {BlockCall, ConsumerIdCall, BtcCall, PowerCall, VotesCall})
  {
    hide Total, Decides, Insert;
  }

  // ----- no power at all -----

  /** Worlds that differ in the vote service only. */
  ghost predicate SameButVotes(w: World, other: World) {
    && other == w.(votes := other.votes, down := other.down)
    && forall t: nat, call: Fault :: call != VotesCall ==> other.down(t, call) == w.down(t, call)
  }

  lemma BlockIgnoresVotes(w: World, other: World, s: State, h: Height)
    requires SameButVotes(w, other)
    ensures BlockByNumber(other, s, h) == BlockByNumber(w, s, h)
  {
    hide Insert;
  }

  lemma FpsIgnoreVotes(w: World, other: World, s: State)
    requires SameButVotes(w, other)
    ensures AllFpBtcPubKeys(other, s) == AllFpBtcPubKeys(w, s)
  {
  }

  lemma PowerIgnoresVotes(w: World, other: World, s: State, q: QueryBlock)
    requires SameButVotes(w, other)
    ensures AllPkPower(other, s, q) == AllPkPower(w, s, q)
  {
    hide AllFpBtcPubKeys, Insert;
    FpsIgnoreVotes(w, other, s);
  }

  /** No call but that for the votes fails from tick `t` on. */
  ghost predicate UpButVotes(w: World, t: nat) {
    forall u: nat, call: Fault :: t <= u && call != VotesCall ==> !w.down(u, call)
  }

  lemma UpFps(w: World, s: State)
    requires UpButVotes(w, s.clock)
    ensures var (s', r) := AllFpBtcPubKeys(w, s); r.Ok? && s.clock <= s'.clock
  {
    hide FpsCached, KeepFps;
    FpsFreshness(w, s);
  }

  lemma UpBtc(w: World, s: State, q: QueryBlock)
    requires UpButVotes(w, s.clock)
    ensures var (s', r) := BtcHeight(w, s, q); r.Ok? && s.clock <= s'.clock
  {
    hide Insert;
  }

  lemma UpMulti(w: World, s: State, pks: seq<FpKey>, btc: U32)
    requires UpButVotes(w, s.clock)
    ensures MultiFpPower(w, s, pks, btc).1.Ok?
  {
    hide Insert;
  }

  lemma UpPower(w: World, s: State, q: QueryBlock)
    requires UpButVotes(w, s.clock)
    ensures AllPkPower(w, s, q).1.Ok?
  {
    hide AllFpBtcPubKeys, BtcHeight, MultiFpPower;
    UpFps(w, s);
    var (s1, pks) := AllFpBtcPubKeys(w, s);
    UpBtc(w, s1, q);
    var (s2, btc) := BtcHeight(w, s1, q);
    UpMulti(w, s2, pks.value, btc.value);
  }

  lemma UpBlock(w: World, s: State, h: Height)
    requires UpButVotes(w, s.clock)
    ensures var (s', r) := BlockByNumber(w, s, h); r.Ok? && s.clock <= s'.clock
  {
    hide Insert;
  }

  /** Where no provider has power the vote service is not asked: whatever it says and whether it is up or
      not, the probe does the same and leaves the vote cache alone; and with every other call answered it
      says "finalized". */
  lemma NoPowerNoVotes(w: World, other: World, s: State, h: Height)
    requires Settled(w) && Inv(w, s, iset{}) && SameButVotes(w, other) && Total(PowerAt(w, h)) == 0
    ensures ByNumber(other, s, h) == ByNumber(w, s, h)
    ensures ByNumber(other, s, h).0.votes == s.votes
    ensures UpButVotes(w, s.clock) ==> ByNumber(other, s, h).1 == Ok(true)
  {
    hide Total, Decides, BlockByNumber, AllPkPower, VotedProviders, Settled, Inv, Coherent, Block, PowerAt;
    BlockIgnoresVotes(w, other, s, h);
    TrueBlock(w, s, h);
    AskIsBlock(w, h);
    var (s1, header) := BlockByNumber(w, s, h);
    PowerIgnoresVotes(w, other, s1, Block(w, h));
    TruePower(w, s1, h);
    if UpButVotes(w, s.clock) {
      UpBlock(w, s, h);
      UpPower(w, s1, Block(w, h));
    }
  }
}
