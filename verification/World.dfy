/** The remote services as the provider meets them. Every remote call happens at a tick of one clock;
    what a service says, and whether it fails, may be different at every tick. */
module World {
  import opened Machine
  import opened Quorum

  /** What the code reads of an L2 block. */
  datatype Header = Header(hash: string, time: U64, number: Height)

  /** The finality query, after its hash lost the `0x`. */
  datatype QueryBlock = QueryBlock(hash: string, time: U64, height: Height)

  datatype World = World(
    heads: nat -> Height,
    headers: (nat, Height) -> Header,
    fps: nat -> seq<FpKey>,
    btcHeights: (nat, U64) -> U32,
    powers: (nat, seq<FpKey>, U32) -> PowerMap,
    votes: (nat, QueryBlock) -> VoteList,
    nanos: nat -> nat,
    down: (nat, Fault) -> bool)

  /** One `0x` is cut off, if there is one. */
  function Trim0x(hash: string): (r: string)
    ensures if "0x" <= hash then hash == "0x" + r else r == hash
  {
    if |hash| >= 2 && hash[..2] == "0x" then hash[2..] else hash
  }

  function Ask(header: Header): QueryBlock {
    QueryBlock(Trim0x(header.hash), header.time, header.number)
  }

  // ----- the true finality of a height, read off the remote services with no cache -----

  function Block(w: World, h: Height): QueryBlock {
    Ask(w.headers(0, h))
  }

  function BtcAt(w: World, h: Height): U32 {
    w.btcHeights(0, Block(w, h).time)
  }

  function PowerAt(w: World, h: Height): PowerMap {
    w.powers(0, w.fps(0), BtcAt(w, h))
  }

  function VotesAt(w: World, t: nat, h: Height): VoteList {
    w.votes(t, Block(w, h))
  }

  ghost predicate Passes(w: World, h: Height, list: VoteList) {
    Decides(PowerAt(w, h), list)
  }

  ghost predicate Finalized(w: World, t: nat, h: Height) {
    Passes(w, h, VotesAt(w, t, h))
  }

  /** Height 1 is the code's unverified starting point. */
  ghost predicate Floor(w: World, t: nat, h: Height) {
    h <= 1 || Finalized(w, t, h)
  }

  // ----- what the provider relies on -----

  /** One block a height; distinct hashes, printed with `0x`. */
  ghost predicate OneChain(w: World) {
    && (forall t: nat, h: Height :: w.headers(t, h) == w.headers(0, h))
    && (forall h: Height :: w.headers(0, h).number == h && "0x" <= w.headers(0, h).hash)
    && (forall g: Height, h: Height :: w.headers(0, g).hash == w.headers(0, h).hash ==> g == h)
  }

  ghost predicate FixedFps(w: World) {
    forall t: nat :: w.fps(t) == w.fps(0)
  }

  ghost predicate FixedBtc(w: World) {
    forall t: nat, time: U64 :: w.btcHeights(t, time) == w.btcHeights(0, time)
  }

  ghost predicate FixedHistory(w: World) {
    forall t: nat, b: U32 :: w.powers(t, w.fps(0), b) == w.powers(0, w.fps(0), b)
  }

  ghost predicate SmallPower(w: World) {
    forall b: U32 :: 3 * Total(w.powers(0, w.fps(0), b)) < MOD
  }

  /** The provider set, the time to BTC height map and past voting power never change,
      and the power fits the machine sums. */
  ghost predicate FixedPower(w: World) {
    FixedFps(w) && FixedBtc(w) && FixedHistory(w) && SmallPower(w)
  }

  /** Vote lists have no repeats and only grow. */
  ghost predicate GrowingVotes(w: World) {
    && (forall t: nat, q: QueryBlock :: Distinct(w.votes(t, q)))
    && (forall t: nat, u: nat, q: QueryBlock :: t <= u ==> Members(w.votes(t, q)) <= Members(w.votes(u, q)))
  }

  ghost predicate Settled(w: World) {
    OneChain(w) && FixedPower(w) && GrowingVotes(w)
  }

  ghost predicate DownwardClosed(w: World) {
    forall t: nat, g: Height, h: Height :: 1 <= g <= h && Finalized(w, t, h) ==> Finalized(w, t, g)
  }

  /** No vote is added from tick `t` on. */
  ghost predicate Frozen(w: World, t: nat) {
    forall u: nat, q: QueryBlock :: t <= u ==> w.votes(u, q) == w.votes(t, q)
  }

  /** No remote call fails from tick `t` on. */
  ghost predicate UpFrom(w: World, t: nat) {
    forall u: nat, call: Fault :: t <= u ==> !w.down(u, call)
  }

  ghost predicate AllUp(w: World) {
    UpFrom(w, 0)
  }

  lemma UpLater(w: World, t: nat, u: nat)
    requires UpFrom(w, t) && t <= u
    ensures UpFrom(w, u)
  {
  }

  /** The query for a height names it, with the time and the bare hash of the chain's block there. */
  lemma BlockIdentity(w: World, h: Height)
    requires OneChain(w)
    ensures
      var (q, header) := (Block(w, h), w.headers(0, h));
      q.height == h && q.time == header.time && "0x" + q.hash == header.hash
  {
  }

  lemma KeysDiffer(w: World, g: Height, h: Height)
    requires OneChain(w) && Block(w, g).hash == Block(w, h).hash
    ensures g == h
  {
    var a, b := w.headers(0, g).hash, w.headers(0, h).hash;
    assert a == "0x" + Trim0x(a) && b == "0x" + Trim0x(b);
  }

  /** A list that only misses later votes can be behind, never ahead, of the true decision. */
  lemma OlderListIsSound(w: World, h: Height, older: VoteList, t: nat)
    requires Settled(w)
    requires Distinct(older) && Members(older) <= Members(VotesAt(w, t, h))
    ensures Passes(w, h, older) ==> Finalized(w, t, h)
  {
    VotesMonotone(PowerAt(w, h), older, VotesAt(w, t, h));
  }

  /** Finality persists. It is not assumed: it follows from growing vote lists. */
  lemma FinalityPersists(w: World, t: nat, u: nat, h: Height)
    requires Settled(w) && t <= u
    ensures Finalized(w, t, h) ==> Finalized(w, u, h)
  {
    OlderListIsSound(w, h, VotesAt(w, t, h), u);
  }
}
