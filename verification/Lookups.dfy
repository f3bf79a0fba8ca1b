/** The provider's mutable state as a value, and each cached lookup as a function on it. */
module Lookups {
  import opened Machine
  import opened Quorum
  import opened World

  const CACHE_MAP_COUNT := 4096
  const FP_CACHE_NANOS := 240_000_000_000

  /** One answered finality probe; the log of them is kept for the proofs only. */
  datatype Probe = Probe(height: Height, answer: Outcome<bool>)

  datatype State = State(
    last: Height,
    fps: seq<FpKey>,
    fpsAt: Option<nat>,
    votes: map<string, VoteList>,
    finalized: map<Height, bool>,
    btc: map<string, U32>,
    power: map<U32, PowerMap>,
    blocks: map<Height, Header>,
    clock: nat,
    log: seq<Probe>)

  const INITIAL := State(0, [], None, map[], map[], map[], map[], map[], 0, [])

  function Tick(s: State): State {
    s.(clock := s.clock + 1)
  }

  /** Flush when the map has outgrown the limit, then insert. */
  function Insert<K, V>(m: map<K, V>, k: K, v: V): map<K, V> {
    if |m| > CACHE_MAP_COUNT then map[k := v] else m[k := v]
  }

  function SetLast(s: State, height: Height): State {
    if s.last < height then s.(last := height) else s
  }

  function BlockByNumber(w: World, s: State, h: Height): (State, Outcome<Header>) {
    if h in s.blocks then (s, Ok(s.blocks[h]))
    else if w.down(s.clock, BlockCall) then (Tick(s), Err(BlockCall))
    else
      var header := w.headers(s.clock, h);
      (Tick(s).(blocks := Insert(s.blocks, h, header)), Ok(header))
  }

  predicate FpsCached(w: World, s: State) {
    |s.fps| > 0 && s.fpsAt.Some? && w.nanos(s.clock) - s.fpsAt.value <= FP_CACHE_NANOS
  }

  function KeepFps(w: World, s: State, pks: seq<FpKey>): State {
    s.(fps := pks, fpsAt := Some(w.nanos(s.clock)))
  }

  function FetchFpBtcPubKeys(w: World, s: State): (State, Outcome<seq<FpKey>>) {
    if w.down(s.clock, FpKeysCall) then (Tick(s), Err(FpKeysCall))
    else
      var pks := w.fps(s.clock);
      (KeepFps(w, Tick(s), pks), Ok(pks))
  }

  function AllFpBtcPubKeys(w: World, s: State): (State, Outcome<seq<FpKey>>) {
    if FpsCached(w, s) then (s, Ok(s.fps))
    else if w.down(s.clock, ConsumerIdCall) then (Tick(s), Err(ConsumerIdCall))
    else FetchFpBtcPubKeys(w, Tick(s))
  }

  function BtcHeight(w: World, s: State, q: QueryBlock): (State, Outcome<U32>) {
    if q.hash in s.btc then (s, Ok(s.btc[q.hash]))
    else if w.down(s.clock, BtcCall) then (Tick(s), Err(BtcCall))
    else
      var height := w.btcHeights(s.clock, q.time);
      (Tick(s).(btc := Insert(s.btc, q.hash, height)), Ok(height))
  }

  function MultiFpPower(w: World, s: State, pks: seq<FpKey>, btc: U32): (State, Outcome<PowerMap>) {
    if btc in s.power then (s, Ok(s.power[btc]))
    else if w.down(s.clock, PowerCall) then (Tick(s), Err(PowerCall))
    else
      var power := w.powers(s.clock, pks, btc);
      (Tick(s).(power := Insert(s.power, btc, power)), Ok(power))
  }

  function AllPkPower(w: World, s: State, q: QueryBlock): (State, Outcome<PowerMap>) {
    var (s1, pks) := AllFpBtcPubKeys(w, s);
    if pks.Err? then (s1, Err(pks.fault))
    else
      var (s2, btc) := BtcHeight(w, s1, q);
      if btc.Err? then (s2, Err(btc.fault)) else MultiFpPower(w, s2, pks.value, btc.value)
  }

  function VotedProviders(w: World, s: State, q: QueryBlock): (State, Outcome<VoteList>) {
    if q.hash in s.votes then (s, Ok(s.votes[q.hash]))
    else if w.down(s.clock, VotesCall) then (Tick(s), Err(VotesCall))
    else
      var list := w.votes(s.clock, q);
      (Tick(s).(votes := Insert(s.votes, q.hash, list)), Ok(list))
  }

  /** `QueryIsBlockBabylonFinalizedFromBabylon`, for a query whose hash is trimmed. */
  ghost function IsBlockFinalized(w: World, s: State, q: QueryBlock): (State, Outcome<bool>) {
    var (s1, power) := AllPkPower(w, s, q);
    if power.Err? then (s1, Err(power.fault))
    else if Total(power.value) % MOD == 0 then (s1, Ok(true))
    else
      var (s2, list) := VotedProviders(w, s1, q);
      (s2, if list.Err? then Err(list.fault) else Ok(Decides(power.value, list.value)))
  }

  ghost function Answer(w: World, s: State, h: Height): (State, Outcome<bool>) {
    if h in s.finalized then (s, Ok(true))
    else
      var (s1, header) := BlockByNumber(w, s, h);
      if header.Err? then (s1, Err(header.fault))
      else
        var (s2, answer) := IsBlockFinalized(w, s1, Ask(header.value));
        (if answer == Ok(true) then s2.(finalized := Insert(s2.finalized, h, true)) else s2, answer)
  }

  function Record(s: State, h: Height, answer: Outcome<bool>): State {
    s.(log := s.log + [Probe(h, answer)])
  }

  /** `queryFinalizedBlockInBabylonByNumber`. */
  ghost function ByNumber(w: World, s: State, h: Height): (State, Outcome<bool>) {
    var (s1, answer) := Answer(w, s, h);
    (Record(s1, h, answer), answer)
  }

  // ----- the cache invariant -----

  ghost predicate CoherentVotes(w: World, s: State) {
    forall h: Height :: Block(w, h).hash in s.votes ==>
      var list := s.votes[Block(w, h).hash];
      Distinct(list) && Members(list) <= Members(VotesAt(w, s.clock, h))
  }

  /** Every cache entry says what the remote service says, except that a vote list may be short. */
  ghost predicate Coherent(w: World, s: State) {
    && (forall h: Height :: h in s.blocks ==> s.blocks[h] == w.headers(0, h))
    && (forall h: Height :: h in s.finalized ==> Finalized(w, s.clock, h))
    && (forall h: Height :: Block(w, h).hash in s.btc ==> s.btc[Block(w, h).hash] == BtcAt(w, h))
    && (forall b: U32 :: b in s.power ==> s.power[b] == w.powers(0, w.fps(0), b))
    && (|s.fps| > 0 ==> s.fps == w.fps(0))
    && CoherentVotes(w, s)
  }

  /** The heights in `low` are finalized and no cached vote list hides it. */
  ghost predicate Known(w: World, s: State, low: iset<Height>) {
    forall h: Height :: h in low ==>
      && Finalized(w, s.clock, h)
      && (Block(w, h).hash in s.votes ==> Passes(w, h, s.votes[Block(w, h).hash]))
  }

  ghost predicate Inv(w: World, s: State, low: iset<Height>) {
    Coherent(w, s) && Known(w, s, low)
  }

  /** What an answer about `h` is worth: "finalized" is true now; "not finalized" may only be said of
      a height outside `low`. */
  ghost predicate Sound(w: World, t: nat, h: Height, answer: Outcome<bool>, low: iset<Height>) {
    answer.Ok? ==> (answer.value ==> Finalized(w, t, h)) && (h in low ==> answer.value)
  }

  /** The answers logged from entry `since` on are worth what `Sound` says. */
  ghost predicate LogSound(w: World, s: State, low: iset<Height>, since: nat) {
    forall i :: since <= i < |s.log| ==> Sound(w, s.clock, s.log[i].height, s.log[i].answer, low)
  }

  ghost predicate Bounded(s: State) {
    && |s.votes| <= CACHE_MAP_COUNT + 1
    && |s.finalized| <= CACHE_MAP_COUNT + 1
    && |s.btc| <= CACHE_MAP_COUNT + 1
    && |s.power| <= CACHE_MAP_COUNT + 1
    && |s.blocks| <= CACHE_MAP_COUNT + 1
  }

  lemma InsertBounded<K, V>(m: map<K, V>, k: K, v: V)
    requires |m| <= CACHE_MAP_COUNT + 1
    ensures |Insert(m, k, v)| <= CACHE_MAP_COUNT + 1
  {
    if |m| <= CACHE_MAP_COUNT {
      assert m[k := v].Keys == m.Keys + {k};
    } else {
      assert map[k := v].Keys == {k};
    }
  }

  lemma InsertGrows<K, V>(m: map<K, V>, k: K, v: V)
    requires |m| <= CACHE_MAP_COUNT
    ensures |Insert(m, k, v)| <= |m| + 1
    ensures k !in m ==> forall key :: key in m ==> key in Insert(m, k, v) && Insert(m, k, v)[key] == m[key]
  {
    assert m[k := v].Keys == m.Keys + {k};
  }
}
