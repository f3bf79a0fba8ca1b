/** The provider as the source has it: one object whose methods update the stored height and the caches
    in place. Each method is proved to do what its function on `State` says, so every theorem about
    those functions is a theorem about the object. */
module Provider {
  import opened Machine
  import opened Quorum
  import opened World
  import opened Lookups
  import opened Search
  import opened Bracketing
  import opened Caching

  /** `types.Block`: the caller's block, whose hash a finality check trims in place. */
  class L2Block {
    var blockHash: string
    const blockTimestamp: U64
    const blockHeight: Height

    ghost function Value(): Header
      reads this
    {
      Header(blockHash, blockTimestamp, blockHeight)
    }

    constructor (header: Header)
      ensures Value() == header
    {
      blockHash, blockTimestamp, blockHeight := header.hash, header.time, header.number;
    }
  }

  class FinalizedStateProvider {
    const w: World

    var lastFinalizedHeight: Height
    var allFpsCache: seq<FpKey>
    var allFpsCacheLastTime: Option<nat>
    var votedFpPksCache: map<string, VoteList>
    var finalizedCache: map<Height, bool>
    var btcblockHeightCache: map<string, U32>
    var multiFpPowerCache: map<U32, PowerMap>
    var l2BlockCache: map<Height, Header>

    /** Ticks spent: the remote calls made so far. */
    var clock: nat
    ghost var log: seq<Probe>

    ghost function Abs(): State
      reads this
    {
      State(lastFinalizedHeight, allFpsCache, allFpsCacheLastTime, votedFpPksCache, finalizedCache,
            btcblockHeightCache, multiFpPowerCache, l2BlockCache, clock, log)
    }

    constructor (w: World)
      ensures this.w == w && Abs() == INITIAL
    {
      this.w := w;
      lastFinalizedHeight := 0;
      allFpsCache, allFpsCacheLastTime := [], None;
      votedFpPksCache, finalizedCache := map[], map[];
      btcblockHeightCache, multiFpPowerCache, l2BlockCache := map[], map[], map[];
      clock, log := 0, [];
    }

    method GetLastFinalized() returns (height: Height)
      ensures height == Abs().last
    {
      height := lastFinalizedHeight;
    }

    method SetLastFinalized(height: Height)
      modifies this`lastFinalizedHeight
      ensures Abs() == SetLast(old(Abs()), height)
      ensures lastFinalizedHeight >= height && lastFinalizedHeight >= old(lastFinalizedHeight)
    {
      if lastFinalizedHeight < height {
        lastFinalizedHeight := height;
      }
    }

    /** One remote call: is the service up at this tick? */
    method Call(call: Fault) returns (t: nat, up: bool)
      modifies this`clock
      ensures t == old(clock) && up == !w.down(t, call) && Abs() == Tick(old(Abs()))
    {
      t := clock;
      up := !w.down(t, call);
      clock := clock + 1;
    }

    method BlockByNumber(number: Height) returns (r: Outcome<Header>)
      modifies this`l2BlockCache, this`clock
      ensures (Abs(), r) == Lookups.BlockByNumber(w, old(Abs()), number)
      ensures r.Ok? ==> number in l2BlockCache && l2BlockCache[number] == r.value
    {
      if number in l2BlockCache {
        return Ok(l2BlockCache[number]);
      }
      var t, up := Call(BlockCall);
      if !up {
        return Err(BlockCall);
      }
      var blk := w.headers(t, number);
      if |l2BlockCache| > CACHE_MAP_COUNT {
        l2BlockCache := map[];
      }
      l2BlockCache := l2BlockCache[number := blk];
      return Ok(blk);
    }

    method QueryAllFpBtcPubKeys() returns (r: Outcome<seq<FpKey>>)
      modifies this`allFpsCache, this`allFpsCacheLastTime, this`clock
      ensures (Abs(), r) == AllFpBtcPubKeys(w, old(Abs()))
      ensures clock == old(clock) <==> FreshList(w, old(Abs()))
      ensures clock == old(clock) ==> Abs() == old(Abs()) && r == Ok(allFpsCache)
    {
      FpsFreshness(w, Abs());
      if |allFpsCache| > 0 && allFpsCacheLastTime.Some?
         && w.nanos(clock) - allFpsCacheLastTime.value <= FP_CACHE_NANOS {
        return Ok(allFpsCache);
      }
      var t, up := Call(ConsumerIdCall);
      if !up {
        return Err(ConsumerIdCall);
      }
      t, up := Call(FpKeysCall);
      if !up {
        return Err(FpKeysCall);
      }
      allFpsCache := w.fps(t);
      allFpsCacheLastTime := Some(w.nanos(clock));
      return Ok(allFpsCache);
    }

    method GetBlockHeightByTimestamp(block: QueryBlock) returns (r: Outcome<U32>)
      modifies this`btcblockHeightCache, this`clock
      ensures (Abs(), r) == BtcHeight(w, old(Abs()), block)
      ensures r.Ok? ==> block.hash in btcblockHeightCache && btcblockHeightCache[block.hash] == r.value
    {
      if block.hash in btcblockHeightCache {
        return Ok(btcblockHeightCache[block.hash]);
      }
      var t, up := Call(BtcCall);
      if !up {
        return Err(BtcCall);
      }
      var height := w.btcHeights(t, block.time);
      if |btcblockHeightCache| > CACHE_MAP_COUNT {
        btcblockHeightCache := map[];
      }
      btcblockHeightCache := btcblockHeightCache[block.hash := height];
      return Ok(height);
    }

    method QueryMultiFpPower(pks: seq<FpKey>, btcHeight: U32) returns (r: Outcome<PowerMap>)
      modifies this`multiFpPowerCache, this`clock
      ensures (Abs(), r) == MultiFpPower(w, old(Abs()), pks, btcHeight)
      ensures r.Ok? ==> btcHeight in multiFpPowerCache && multiFpPowerCache[btcHeight] == r.value
    {
      if btcHeight in multiFpPowerCache {
        return Ok(multiFpPowerCache[btcHeight]);
      }
      var t, up := Call(PowerCall);
      if !up {
        return Err(PowerCall);
      }
      var power := w.powers(t, pks, btcHeight);
      if |multiFpPowerCache| > CACHE_MAP_COUNT {
        multiFpPowerCache := map[];
      }
      multiFpPowerCache := multiFpPowerCache[btcHeight := power];
      return Ok(power);
    }

    method QueryAllPkPower(block: QueryBlock) returns (r: Outcome<PowerMap>)
      modifies this
      ensures (Abs(), r) == AllPkPower(w, old(Abs()), block)
    {
      hide AllFpBtcPubKeys, BtcHeight, MultiFpPower;
      var pks := QueryAllFpBtcPubKeys();
      if pks.Err? {
        return Err(pks.fault);
      }
      var btc := GetBlockHeightByTimestamp(block);
      if btc.Err? {
        return Err(btc.fault);
      }
      r := QueryMultiFpPower(pks.value, btc.value);
    }

    method QueryListOfVotedFinalityProviders(block: QueryBlock) returns (r: Outcome<VoteList>)
      modifies this`votedFpPksCache, this`clock
      ensures (Abs(), r) == VotedProviders(w, old(Abs()), block)
      ensures r.Ok? ==> block.hash in votedFpPksCache && votedFpPksCache[block.hash] == r.value
    {
      if block.hash in votedFpPksCache {
        return Ok(votedFpPksCache[block.hash]);
      }
      var t, up := Call(VotesCall);
      if !up {
        return Err(VotesCall);
      }
      var list := w.votes(t, block);
      if |votedFpPksCache| > CACHE_MAP_COUNT {
        votedFpPksCache := map[];
      }
      votedFpPksCache := votedFpPksCache[block.hash := list];
      return Ok(list);
    }

    /** A nil block is refused; otherwise the `0x` is cut off, in the caller's block, and the votes are
        weighed. */
    method QueryIsBlockBabylonFinalizedFromBabylon(block: L2Block?) returns (r: Outcome<bool>)
      modifies this, block
      ensures block == null ==> Abs() == old(Abs()) && r == Err(NilBlock)
      ensures block != null ==>
        && block.Value() == old(block.Value()).(hash := Trim0x(old(block.blockHash)))
        && (Abs(), r) == IsBlockFinalized(w, old(Abs()), Ask(old(block.Value())))
        && var (s1, power) := AllPkPower(w, old(Abs()), Ask(old(block.Value())));
           power.Ok? && Total(power.value) % MOD == 0 ==> Abs() == s1 && r == Ok(true)
    {
      hide AllPkPower, VotedProviders, Total, Tally;
      if block == null {
        return Err(NilBlock);
      }
      block.blockHash := Trim0x(block.blockHash);
      var q := QueryBlock(block.blockHash, block.blockTimestamp, block.blockHeight);
      var allFpPower := QueryAllPkPower(q);
      if allFpPower.Err? {
        return Err(allFpPower.fault);
      }
      var totalPower := TotalPower(allFpPower.value);
      if totalPower == 0 {
        return Ok(true);
      }
      var votedFpPks := QueryListOfVotedFinalityProviders(q);
      if votedFpPks.Err? {
        return Err(votedFpPks.fault);
      }
      if votedFpPks.value.NilList? {
        return Ok(false);
      }
      var votedPower := VotedPower(allFpPower.value, votedFpPks.value.keys);
      if MulU64(votedPower, 3) < MulU64(totalPower, 2) {
        return Ok(false);
      }
      return Ok(true);
    }

    method QueryFinalizedBlockInBabylonByNumber(height: Height) returns (r: Outcome<bool>)
      modifies this
      ensures (Abs(), r) == ByNumber(w, old(Abs()), height)
    {
      hide IsBlockFinalized, Lookups.BlockByNumber;
      if height in finalizedCache {
        r := Ok(true);
      } else {
        var blk := BlockByNumber(height);
        if blk.Err? {
          r := Err(blk.fault);
        } else {
          var block := new L2Block(blk.value);
          r := QueryIsBlockBabylonFinalizedFromBabylon(block);
          if r == Ok(true) {
            if |finalizedCache| > CACHE_MAP_COUNT {
              finalizedCache := map[];
            }
            finalizedCache := finalizedCache[height := true];
          }
        }
      }
      log := log + [Probe(height, r)];
    }

    method QueryFinalizedBlockInBabylonFromTo(from0: Height, to0: Height) returns (r: Outcome<Height>)
      modifies this
      ensures (Abs(), r) == FromTo(w, old(Abs()), from0, to0)
      decreases if from0 > to0 then from0 - to0 else to0 - from0
    {
      hide ByNumber;
      var from, to := from0, to0;
      if from > to {
        from, to := to, from;
      }
      if from == to {
        return Ok(to);
      }
      if from + 1 == to {
        return Ok(from);
      }
      MidHalves(from, to);
      var check := Mid(from, to);
      var isFinalized := QueryFinalizedBlockInBabylonByNumber(check);
      if isFinalized.Err? {
        return Err(isFinalized.fault);
      }
      if isFinalized.value {
        SetLastFinalized(check - 1);
        r := QueryFinalizedBlockInBabylonFromTo(check, to);
      } else {
        r := QueryFinalizedBlockInBabylonFromTo(from, check);
      }
    }

    method BlockNumber() returns (r: Outcome<Height>)
      modifies this`clock
      ensures Abs() == Tick(old(Abs()))
      ensures r == if w.down(old(clock), HeadCall) then Err(HeadCall) else Ok(w.heads(old(clock)))
    {
      var t, up := Call(HeadCall);
      r := if up then Ok(w.heads(t)) else Err(HeadCall);
    }

    method QueryFinalizedBlockInBabylon() returns (r: Outcome<Height>)
      modifies this
      ensures (Abs(), r) == Query(w, old(Abs()))
    {
      hide Query, Run, ByNumber, FromTo, Glide;
      var head := BlockNumber();
      if head.Err? {
        QueryHeadDown(w, old(Abs()));
        return head;
      }
      QueryUnfold(w, old(Abs()));
      var currentNumber := head.value;
      var fromBlockHeight := GetLastFinalized();
      if fromBlockHeight == 0 {
        fromBlockHeight := 1;
      }
      if currentNumber == fromBlockHeight {
        RunDone(w, Abs(), Ok(currentNumber));
        return Ok(currentNumber);
      }
      assert fromBlockHeight == From(Abs().last);
      if currentNumber > 1 {
        RunAsk(w, Abs(), Top(currentNumber, fromBlockHeight));
        var isFinalized := QueryFinalizedBlockInBabylonByNumber(currentNumber - 1);
        if isFinalized.Ok? {
          if isFinalized.value {
            RunDone(w, Abs(), Ok(currentNumber - 1));
            return Ok(currentNumber - 1);
          }
        }
      }
      assert Run(w, Abs(), AfterTop(currentNumber, fromBlockHeight)) == Query(w, old(Abs()));
      if currentNumber > FAST_CHECK {
        var checkNumber: Height := currentNumber - FAST_CHECK;
        if checkNumber > fromBlockHeight {
          RunAsk(w, Abs(), Jump(currentNumber, fromBlockHeight));
          var isFinalized := QueryFinalizedBlockInBabylonByNumber(checkNumber);
          if isFinalized.Err? {
            RunDone(w, Abs(), Err(isFinalized.fault));
            return Err(isFinalized.fault);
          }
          if isFinalized.value {
            fromBlockHeight := checkNumber;
          }
        }
      }
      r := FinishQuery(currentNumber, fromBlockHeight);
    }

    /** The rest of the search, from the check of the next height on. */
    method FinishQuery(currentNumber: Height, from: Height) returns (r: Outcome<Height>)
      modifies this
      ensures (Abs(), r) == Run(w, old(Abs()), AfterJump(currentNumber, from))
    {
      hide Run, ByNumber, FromTo, Glide;
      var fromBlockHeight := from;
      if fromBlockHeight + 1 == currentNumber {
        RunAsk(w, Abs(), Next(currentNumber, fromBlockHeight));
        var isFinalized := QueryFinalizedBlockInBabylonByNumber(currentNumber);
        r := if isFinalized.Err? then Err(isFinalized.fault)
             else if isFinalized.value then Ok(currentNumber)
             else Ok(fromBlockHeight);
        RunDone(w, Abs(), r);
        return;
      }
      if fromBlockHeight + 1 < currentNumber {
        RunAsk(w, Abs(), Try(currentNumber, fromBlockHeight));
        var isFinalized := QueryFinalizedBlockInBabylonByNumber(fromBlockHeight + 1);
        if isFinalized.Err? {
          RunDone(w, Abs(), Err(isFinalized.fault));
          return Err(isFinalized.fault);
        }
        if isFinalized.value {
          fromBlockHeight := fromBlockHeight + 1;
        }
      }
      SplitIsFromTo(w, Abs(), fromBlockHeight, currentNumber);
      r := QueryFinalizedBlockInBabylonFromTo(fromBlockHeight, currentNumber);
      if r.Ok? {
        SetLastFinalized(r.value);
      }
    }
  }
}
