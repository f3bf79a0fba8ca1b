/** The L2 block handler as the source has it: an object that scans for new blocks on every tick, hands
    them to the registered processers and moves its latest block forward in place. */
module Handler {
  import opened Machine
  import D = Delivery

  /** `IL2BlockProcesser`: it sees blocks, and may answer with an error that only gets logged. */
  class Processer {
    var seen: seq<D.Block>
    const refuses: D.Block -> bool

    constructor (refuses: D.Block -> bool)
      ensures seen == []
    {
      seen := [];
      this.refuses := refuses;
    }

    method OnBlock(blk: D.Block) returns (err: bool)
      modifies this
      ensures seen == old(seen) + [blk] && err == refuses(blk)
    {
      seen := seen + [blk];
      err := refuses(blk);
    }
  }

  /** The names in `names` under which `p` is registered. */
  ghost function NamesOf(registry: map<string, Processer>, names: set<string>, p: Processer): set<string> {
    set name | name in names && name in registry && registry[name] == p
  }

  lemma NamesGrow(registry: map<string, Processer>, names: set<string>, name: string, p: Processer)
    requires name in registry && name !in names
    ensures |NamesOf(registry, names + {name}, p)| ==
            |NamesOf(registry, names, p)| + if registry[name] == p then 1 else 0
  {
    var (before, after) := (NamesOf(registry, names, p), NamesOf(registry, names + {name}, p));
    if registry[name] == p {
      assert after == before + {name};
    } else {
      assert after == before;
    }
  }

  /** What `p` is given of one block when the names in `names` have had their turn. */
  ghost function Given(registry: map<string, Processer>, names: set<string>, p: Processer, blk: D.Block): seq<D.Block> {
    D.Copies(blk, |NamesOf(registry, names, p)|)
  }

  lemma GivenNone(registry: map<string, Processer>, p: Processer, blk: D.Block)
    ensures Given(registry, {}, p, blk) == []
  {
    assert NamesOf(registry, {}, p) == {};
  }

  lemma GivenGrows(registry: map<string, Processer>, names: set<string>, name: string, p: Processer, blk: D.Block)
    requires name in registry && name !in names
    ensures Given(registry, names + {name}, p, blk) ==
            Given(registry, names, p, blk) + if registry[name] == p then [blk] else []
  {
    NamesGrow(registry, names, name, p);
    D.CopiesGrow(blk, |NamesOf(registry, names, p)|);
  }

  class L2BlockHandler {
    const node: D.Node
    const blockInterval: U64

    var latestBlockNumber: U64
    var latestBlockHash: string
    var processers: map<string, Processer>
    var clock: nat
    ghost var attempts: seq<D.Attempt>

    ghost function Abs(): D.Loop
      reads this
    {
      D.Loop(latestBlockNumber, latestBlockHash, blockInterval, clock, attempts)
    }

    /** Under how many names a processer is registered. */
    ghost function Times(p: Processer): nat
      reads this
    {
      |NamesOf(processers, processers.Keys, p)|
    }

    constructor (node: D.Node, blockInterval: U64)
      ensures this.node == node && Abs() == D.Loop(0, "", blockInterval, 0, []) && processers == map[]
    {
      this.node, this.blockInterval := node, blockInterval;
      latestBlockNumber, latestBlockHash := 0, "";
      processers := map[];
      clock, attempts := 0, [];
    }

    method AddProcesser(name: string, processer: Processer)
      modifies this`processers
      ensures processers == old(processers)[name := processer]
      ensures name !in old(processers) ==> Times(processer) == old(Times(processer)) + 1
    {
      ghost var others := processers.Keys;
      processers := processers[name := processer];
      if name !in others {
        NamesGrow(processers, others, name, processer);
        assert NamesOf(processers, others, processer) == old(NamesOf(processers, processers.Keys, processer));
        assert processers.Keys == others + {name};
      }
    }

    method WithLatestBlock(number: U64, hash: string)
      modifies this`latestBlockNumber, this`latestBlockHash
      ensures Abs() == old(Abs()).(latest := number, hash := hash)
    {
      SetProcessedBlock(number, hash);
    }

    method SetProcessedBlock(number: U64, hash: string)
      modifies this`latestBlockNumber, this`latestBlockHash
      ensures Abs() == old(Abs()).(latest := number, hash := hash)
    {
      latestBlockNumber := number;
      latestBlockHash := hash;
    }

    /** Every registered processer gets the block, once a name, in any order, whatever it answers. */
    method HandleBlock(blk: D.Block)
      modifies processers.Values
      ensures forall p: Processer :: p in processers.Values ==> p.seen == old(p.seen) + D.Copies(blk, Times(p))
    {
      hide D.Copies, NamesOf, Given;
      forall p: Processer ensures Given(processers, {}, p, blk) == [] {
        GivenNone(processers, p, blk);
      }
      var rest := processers.Keys;
      ghost var done: set<string> := {};
      while rest != {}
        invariant rest !! done && rest + done == processers.Keys
        invariant forall p: Processer :: p in processers.Values ==>
          p.seen == old(p.seen) + Given(processers, done, p, blk)
        decreases rest
      {
        var name :| name in rest;
        forall p: Processer
          ensures Given(processers, done + {name}, p, blk) ==
                  Given(processers, done, p, blk) + if processers[name] == p then [blk] else []
        {
          GivenGrows(processers, done, name, p, blk);
        }
        var err := processers[name].OnBlock(blk);
        rest, done := rest - {name}, done + {name};
      }
      forall p: Processer ensures Given(processers, processers.Keys, p, blk) == D.Copies(blk, Times(p)) {
        GivenAll(p, blk);
      }
    }

    lemma GivenAll(p: Processer, blk: D.Block)
      ensures Given(processers, processers.Keys, p, blk) == D.Copies(blk, Times(p))
    {
    }

    method FetchBlock(number: U64) returns (ok: bool)
      modifies this`latestBlockNumber, this`latestBlockHash, this`clock, this`attempts, processers.Values
      ensures Abs() == D.FetchBlock(node, old(Abs()), number)
      ensures ok == node.blocks(old(clock), number).Some?
      ensures attempts == old(attempts) + [D.Attempt(number, node.blocks(old(clock), number))]
      ensures forall p: Processer :: p in processers.Values ==>
        p.seen == old(p.seen) + if ok then D.Copies(node.blocks(old(clock), number).value, Times(p)) else []
    {
      var got := node.blocks(clock, number);
      clock := clock + 1;
      attempts := attempts + [D.Attempt(number, got)];
      if got.None? {
        return false;
      }
      HandleBlock(got.value);
      SetProcessedBlock(number, got.value.hash);
      return true;
    }

    lemma TickBetween()
      ensures
        var s' := D.Tick(node, Abs()).0;
        forall j :: |attempts| <= j < |s'.attempts| ==>
          node.heads(clock).Some? && latestBlockNumber < s'.attempts[j].number < node.heads(clock).value
    {
      hide D.Tick, D.AtLast;
      D.TickAsks(node, Abs());
      var s' := D.Tick(node, Abs()).0;
      forall j | |attempts| <= j < |s'.attempts| ensures s'.attempts[j] == D.Since(Abs(), s')[j - |attempts|] {
      }
    }

    /** One tick. A processer sees the blocks of the requests this tick adds. */
    method FetchBlocks() returns (r: D.Report)
      modifies this`latestBlockNumber, this`latestBlockHash, this`clock, this`attempts, processers.Values
      ensures (Abs(), r) == D.Tick(node, old(Abs()))
      ensures forall j :: |old(attempts)| <= j < |attempts| ==>
        && node.heads(old(clock)).Some?
        && old(latestBlockNumber) < attempts[j].number < node.heads(old(clock)).value
      ensures old(attempts) <= attempts
      ensures forall p: Processer :: p in processers.Values ==>
        p.seen == old(p.seen) + D.Handed(attempts[|old(attempts)|..], Times(p))
    {
      hide D.Copies, D.Handed, D.FetchBlock, NamesOf;
      TickBetween();
      D.HandedNone();
      assert attempts[|old(attempts)|..] == [];
      var head := node.heads(clock);
      clock := clock + 1;
      if head.None? {
        return D.NoHead;
      }
      if head.value <= latestBlockNumber {
        return D.Finished;
      }
      var i: int := latestBlockNumber + 1;
      while i < head.value
        invariant 0 <= i <= head.value
        invariant D.Tick(node, old(Abs())) == D.Scan(node, Abs(), i, head.value)
        invariant old(attempts) <= attempts
        invariant forall p: Processer :: p in processers.Values ==>
          p.seen == old(p.seen) + D.Handed(attempts[|old(attempts)|..], Times(p))
      {
        if blockInterval > 1 && i % blockInterval != 0 {
          i := i + 1;
          continue;
        }
        ghost var added := attempts[|old(attempts)|..];
        ghost var a := D.Attempt(i, node.blocks(clock, i));
        var ok := FetchBlock(i);
        assert attempts[|old(attempts)|..] == added + [a];
        forall p: Processer | p in processers.Values
          ensures p.seen == old(p.seen) + D.Handed(added + [a], Times(p))
        {
          D.HandedOne(added, a, Times(p));
        }
        if !ok {
          return D.FailedAt(i);
        }
        i := i + 1;
      }
      r := D.Finished;
    }

    /** The ticker loop: what a tick reports is only logged. A processer registered under one name sees
        every due block between the latest blocks at the ends once, in order. */
    method RunTicks(ticks: nat)
      modifies this`latestBlockNumber, this`latestBlockHash, this`clock, this`attempts, processers.Values
      ensures Abs() == D.Run(node, old(Abs()), ticks)
      ensures old(attempts) <= attempts
      ensures forall p: Processer :: p in processers.Values ==>
        p.seen == old(p.seen) + D.Handed(attempts[|old(attempts)|..], Times(p))
      ensures forall p: Processer :: p in processers.Values && Times(p) == 1 ==>
        && old(p.seen) <= p.seen
        && D.Answers(attempts[|old(attempts)|..], D.DueIn(blockInterval, old(latestBlockNumber), latestBlockNumber),
                     p.seen[|old(p.seen)|..])
    {
      hide D.Handed, D.Tick, D.DueIn, D.Answers, NamesOf;
      D.HandedNone();
      assert attempts[|old(attempts)|..] == [];
      for i := 0 to ticks
        invariant Abs() == D.Run(node, old(Abs()), i)
        invariant old(attempts) <= attempts
        invariant forall p: Processer :: p in processers.Values ==>
          p.seen == old(p.seen) + D.Handed(attempts[|old(attempts)|..], Times(p))
      {
        ghost var so := attempts;
        var report := FetchBlocks();
        assert attempts[|old(attempts)|..] == so[|old(attempts)|..] + attempts[|so|..];
        forall p: Processer | p in processers.Values
          ensures p.seen == old(p.seen) + D.Handed(attempts[|old(attempts)|..], Times(p))
        {
          D.HandedConcat(so[|old(attempts)|..], attempts[|so|..], Times(p));
        }
      }
      D.ProcesserSeesEachDueOnce(node, old(Abs()), ticks);
    }
  }
}
