/** What the L2 block loop does, as functions on its state, and what a whole run of ticks delivers. */
module Delivery {
  import opened Machine

  datatype Block = Block(hash: string, number: U64)

  /** The L2 node: at every tick of its clock a head and, for each number, a block or an error. */
  datatype Node = Node(
    heads: nat -> Option<U64>,
    blocks: (nat, U64) -> Option<Block>)

  /** One `BlockByNumber` request and whether it was answered. */
  datatype Attempt = Attempt(number: U64, got: Option<Block>)

  datatype Loop = Loop(latest: U64, hash: string, interval: U64, clock: nat, attempts: seq<Attempt>)

  datatype Report = Finished | NoHead | FailedAt(number: U64)

  predicate Due(interval: U64, i: int) {
    interval <= 1 || i % interval == 0
  }

  /** `fetchBlock`: on an answer the block is handed on and becomes the latest one. */
  function FetchBlock(n: Node, s: Loop, i: U64): Loop {
    var got := n.blocks(s.clock, i);
    var asked := s.(clock := s.clock + 1, attempts := s.attempts + [Attempt(i, got)]);
    if got.Some? then asked.(latest := i, hash := got.value.hash) else asked
  }

  /** The scan from `i` up to, not including, the head. */
  function Scan(n: Node, s: Loop, i: int, head: U64): (Loop, Report)
    requires 0 <= i
    decreases head - i
  {
    if i >= head then (s, Finished)
    else if !Due(s.interval, i) then Scan(n, s, i + 1, head)
    else if n.blocks(s.clock, i).None? then (FetchBlock(n, s, i), FailedAt(i))
    else Scan(n, FetchBlock(n, s, i), i + 1, head)
  }

  /** `fetchBlocks`: one tick of the ticker. */
  function Tick(n: Node, s: Loop): (Loop, Report) {
    var head := n.heads(s.clock);
    var s1 := s.(clock := s.clock + 1);
    if head.None? then (s1, NoHead)
    else if head.value <= s.latest then (s1, Finished)
    else Scan(n, s1, s.latest + 1, head.value)
  }

  // ----- reference: the heights that are due -----

  /** All due heights in `(lo, hi]`, in order. */
  function DueIn(interval: U64, lo: int, hi: int): seq<int>
    decreases hi - lo
  {
    if hi <= lo then []
    else DueIn(interval, lo, hi - 1) + if Due(interval, hi) then [hi] else []
  }

  ghost predicate Increasing(numbers: seq<int>) {
    forall i, j :: 0 <= i < j < |numbers| ==> numbers[i] < numbers[j]
  }

  /** No gap, no repeat, in order: exactly the due heights, each once. */
  lemma {:induction false} DueInMeaning(interval: U64, lo: int, hi: int)
    ensures forall x: int ::
      x in DueIn(interval, lo, hi) <==> lo < x <= hi && (interval <= 1 || x % interval == 0)
    ensures Increasing(DueIn(interval, lo, hi))
    decreases hi - lo
  {
    if lo < hi {
      DueInMeaning(interval, lo, hi - 1);
      var before := DueIn(interval, lo, hi - 1);
      assert forall i :: 0 <= i < |before| ==> before[i] in before;
    }
  }

  lemma {:induction false} DueInSplit(interval: U64, lo: int, mid: int, hi: int)
    requires lo <= mid <= hi
    ensures DueIn(interval, lo, hi) == DueIn(interval, lo, mid) + DueIn(interval, mid, hi)
    decreases hi - mid
  {
    if mid < hi {
      DueInSplit(interval, lo, mid, hi - 1);
    }
  }

  /** The numbers handed to the processers, in the order they were. */
  function Delivered(attempts: seq<Attempt>): seq<int> {
    if attempts == [] then []
    else
      var last := attempts[|attempts| - 1];
      Delivered(attempts[..|attempts| - 1]) + if last.got.Some? then [last.number as int] else []
  }

  lemma DeliveredOne(attempts: seq<Attempt>, a: Attempt)
    ensures Delivered(attempts + [a]) == Delivered(attempts) + if a.got.Some? then [a.number as int] else []
  {
    assert (attempts + [a])[..|attempts|] == attempts;
  }

  lemma {:induction false} DeliveredConcat(one: seq<Attempt>, two: seq<Attempt>)
    ensures Delivered(one + two) == Delivered(one) + Delivered(two)
  {
    if two == [] {
      assert one + two == one;
    } else {
      var rest, last := two[..|two| - 1], two[|two| - 1];
      DeliveredConcat(one, rest);
      assert one + two == (one + rest) + [last] && two == rest + [last];
      DeliveredOne(one + rest, last);
      DeliveredOne(rest, last);
    }
  }

  /** The requests made since `s`. */
  function Since(s: Loop, s': Loop): seq<Attempt>
    requires s.attempts <= s'.attempts
  {
    s'.attempts[|s.attempts|..]
  }

  // ----- one scan -----

  /** What one scan from `i`, with nothing due in `(latest, i)`, is worth. */
  ghost predicate Scanned(s: Loop, s': Loop, i: int, head: U64, report: Report) {
    && s'.interval == s.interval
    && s.latest <= s'.latest && (s'.latest == s.latest || (i <= s'.latest < head && Due(s.interval, s'.latest)))
    && s.attempts <= s'.attempts
    && Delivered(s'.attempts) == Delivered(s.attempts) + DueIn(s.interval, s.latest, s'.latest)
    && match report
       case Finished => DueIn(s.interval, s'.latest, head - 1) == []
       case NoHead => false
       case FailedAt(k) =>
         && i <= k < head && Due(s.interval, k)
         && s'.latest < k && DueIn(s.interval, s'.latest, k - 1) == []
         && s'.attempts != [] && s'.attempts[|s'.attempts| - 1] == Attempt(k, None)
  }

  lemma DueInNext(interval: U64, lo: int, hi: int)
    requires lo < hi
    ensures DueIn(interval, lo, hi) == DueIn(interval, lo, hi - 1) + if Due(interval, hi) then [hi] else []
  {
  }

  /** Handing on the due block `i` and scanning on. */
  lemma ScanJoins(s: Loop, s1: Loop, s': Loop, i: int, head: U64, report: Report, got: Block)
    requires s.latest < i < head && Due(s.interval, i) && DueIn(s.interval, s.latest, i - 1) == []
    requires s1.latest == i && s1.interval == s.interval && s1.attempts == s.attempts + [Attempt(i, Some(got))]
    requires Scanned(s1, s', i + 1, head, report)
    ensures Scanned(s, s', i, head, report)
  {
    hide DueIn, Delivered;
    DeliveredOne(s.attempts, Attempt(i, Some(got)));
    DueInNext(s.interval, s.latest, i);
    DueInSplit(s.interval, s.latest, i, s'.latest);
  }

  lemma {:induction false} ScanDelivers(n: Node, s: Loop, i: int, head: U64)
    requires s.latest < i <= head
    requires DueIn(s.interval, s.latest, i - 1) == []
    ensures var (s', report) := Scan(n, s, i, head); Scanned(s, s', i, head, report)
    decreases head - i
  {
    hide DueIn, Delivered;
    DueInEmpty(s.interval, s.latest);
    if i < head {
      if !Due(s.interval, i) {
        DueInNext(s.interval, s.latest, i);
        ScanDelivers(n, s, i + 1, head);
      } else {
        var (got, s1) := (n.blocks(s.clock, i), FetchBlock(n, s, i));
        if got.Some? {
          DueInEmpty(s.interval, i);
          ScanDelivers(n, s1, i + 1, head);
          var (s', report) := Scan(n, s1, i + 1, head);
          ScanJoins(s, s1, s', i, head, report, got.value);
        } else {
          DeliveredOne(s.attempts, Attempt(i, None));
        }
      }
    }
  }

  lemma DueInEmpty(interval: U64, lo: int)
    ensures DueIn(interval, lo, lo) == []
  {
  }

  /** The first request of a scan is for the first due height. */
  lemma {:induction false} FirstAttempt(n: Node, s: Loop, i: int, head: U64, k: int)
    requires 0 <= i <= k < head && Due(s.interval, k)
    requires forall j: int :: i <= j < k ==> !Due(s.interval, j)
    ensures
      var s' := Scan(n, s, i, head).0;
      |s.attempts| < |s'.attempts| && s'.attempts[..|s.attempts|] == s.attempts
      && s'.attempts[|s.attempts|].number == k
    decreases k - i
  {
    if i < k {
      FirstAttempt(n, s, i + 1, head, k);
    } else {
      ScanKeeps(n, FetchBlock(n, s, i), i + 1, head);
    }
  }

  lemma {:induction false} ScanKeeps(n: Node, s: Loop, i: int, head: U64)
    requires 0 <= i
    ensures s.attempts <= Scan(n, s, i, head).0.attempts
    decreases head - i
  {
    if i < head {
      if !Due(s.interval, i) {
        ScanKeeps(n, s, i + 1, head);
      } else if n.blocks(s.clock, i).Some? {
        ScanKeeps(n, FetchBlock(n, s, i), i + 1, head);
      }
    }
  }

  // ----- one tick -----

  /** One tick delivers exactly the due heights between the old and the new latest block, in order. */
  lemma TickDelivers(n: Node, s: Loop)
    ensures
      var s' := Tick(n, s).0;
      && s'.interval == s.interval && s.latest <= s'.latest
      && Delivered(s'.attempts) == Delivered(s.attempts) + DueIn(s.interval, s.latest, s'.latest)
  {
    hide DueIn, Delivered, Scan;
    var head := n.heads(s.clock);
    DueInEmpty(s.interval, s.latest);
    if head.Some? && s.latest < head.value {
      ScanDelivers(n, s.(clock := s.clock + 1), s.latest + 1, head.value);
    }
  }

  /** An error-free tick leaves no due height below its head behind. */
  lemma TickCatchesUp(n: Node, s: Loop)
    requires n.heads(s.clock).Some? && Tick(n, s).1.Finished?
    ensures
      var (head, s') := (n.heads(s.clock).value, Tick(n, s).0);
      DueIn(s.interval, s'.latest, (head as int) - 1) == []
  {
    var head := n.heads(s.clock).value;
    DueInEmpty(s.interval, s.latest);
    if s.latest < head {
      ScanDelivers(n, s.(clock := s.clock + 1), s.latest + 1, head);
    }
  }

  lemma NothingDue(interval: U64, lo: int, hi: int, x: int)
    requires DueIn(interval, lo, hi) == [] && lo < x <= hi
    ensures !Due(interval, x)
  {
    DueInMeaning(interval, lo, hi);
    assert !(x in DueIn(interval, lo, hi));
  }

  /** After a tick that fails at `k` everything due below `k` is delivered, and the next tick that sees a
      head above `k` asks for `k` first. */
  lemma TickResumes(n: Node, s: Loop, k: U64)
    requires Tick(n, s).1 == FailedAt(k)
    ensures
      var s' := Tick(n, s).0;
      && s'.latest < k && Due(s.interval, k) && DueIn(s.interval, s'.latest, k - 1) == []
      && (n.heads(s'.clock).Some? && k < n.heads(s'.clock).value ==>
            var s'' := Tick(n, s').0;
            |s'.attempts| < |s''.attempts| && s''.attempts[|s'.attempts|].number == k)
  {
    ScanDelivers(n, s.(clock := s.clock + 1), s.latest + 1, n.heads(s.clock).value);
    var s' := Tick(n, s).0;
    forall j: int | s'.latest + 1 <= j < k ensures !Due(s.interval, j) {
      NothingDue(s.interval, s'.latest, k - 1, j);
    }
    if n.heads(s'.clock).Some? && k < n.heads(s'.clock).value {
      FirstAttempt(n, s'.(clock := s'.clock + 1), s'.latest + 1, n.heads(s'.clock).value, k);
    }
  }

  // ----- what a tick asks for -----

  /** Only due numbers from `i` up to below the head are asked for, one a tick of the clock, each with the
      node's answer at that tick, and nothing after the first one that fails. */
  ghost predicate Asked(n: Node, s: Loop, s': Loop, i: int, head: int, report: Report) {
    && s.attempts <= s'.attempts
    && var added := Since(s, s');
    && s'.clock == s.clock + |added|
    && (forall j :: 0 <= j < |added| ==>
          && i <= added[j].number < head && (s.interval <= 1 || added[j].number % s.interval == 0)
          && added[j].got == n.blocks(s.clock + j, added[j].number)
          && (added[j].got.None? <==> j == |added| - 1 && report == FailedAt(added[j].number)))
    && (report.FailedAt? ==> added != [])
  }

  /** The latest block is the last one that was answered, number and hash, if any was. */
  ghost predicate AtLast(s: Loop, added: seq<Attempt>, s': Loop) {
    || (s'.latest == s.latest && s'.hash == s.hash && forall a: Attempt :: a in added ==> a.got.None?)
    || exists i :: 0 <= i < |added| && added[i].got.Some? && s'.latest == added[i].number
                   && s'.hash == added[i].got.value.hash && forall j :: i < j < |added| ==> added[j].got.None?
  }

  lemma AtLastJoins(s: Loop, one: seq<Attempt>, s1: Loop, two: seq<Attempt>, s': Loop)
    requires AtLast(s, one, s1) && AtLast(s1, two, s')
    ensures AtLast(s, one + two, s')
  {
    if i :| 0 <= i < |two| && two[i].got.Some? && s'.latest == two[i].number
            && s'.hash == two[i].got.value.hash && forall j :: i < j < |two| ==> two[j].got.None? {
      assert (one + two)[|one| + i] == two[i];
    } else if i :| 0 <= i < |one| && one[i].got.Some? && s1.latest == one[i].number
                   && s1.hash == one[i].got.value.hash && forall j :: i < j < |one| ==> one[j].got.None? {
      assert (one + two)[i] == one[i];
    }
  }

  lemma AtLastOne(n: Node, s: Loop, i: U64)
    ensures AtLast(s, [Attempt(i, n.blocks(s.clock, i))], FetchBlock(n, s, i))
  {
    var a := Attempt(i, n.blocks(s.clock, i));
    assert [a][0] == a;
  }

  lemma AskedNext(n: Node, s: Loop, s': Loop, i: U64, head: U64, report: Report)
    requires i < head && Due(s.interval, i) && n.blocks(s.clock, i).Some?
    requires Asked(n, FetchBlock(n, s, i), s', i + 1, head, report)
    ensures Asked(n, s, s', i, head, report)
    ensures Since(s, s') == [Attempt(i, n.blocks(s.clock, i))] + Since(FetchBlock(n, s, i), s')
  {
    var s1 := FetchBlock(n, s, i);
    assert s.attempts <= s1.attempts;
    assert Since(s, s') == [Attempt(i, n.blocks(s.clock, i))] + Since(s1, s');
  }

  lemma {:induction false} ScanAsks(n: Node, s: Loop, i: int, head: U64)
    requires 0 <= i
    ensures
      var (s', report) := Scan(n, s, i, head);
      Asked(n, s, s', i, head, report) && AtLast(s, Since(s, s'), s') && !report.NoHead?
    decreases head - i
  {
    hide Asked, AtLast;
    if i >= head {
      NothingAsked(n, s, i, head, Finished);
    } else if !Due(s.interval, i) {
      ScanAsks(n, s, i + 1, head);
      AskedLower(n, s, Scan(n, s, i + 1, head).0, i, head, Scan(n, s, i + 1, head).1);
    } else {
      AtLastOne(n, s, i);
      var s1 := FetchBlock(n, s, i);
      if n.blocks(s.clock, i).None? {
        OneFails(n, s, i, head);
      } else {
        ScanAsks(n, s1, i + 1, head);
        var (s', report) := Scan(n, s1, i + 1, head);
        AskedNext(n, s, s', i, head, report);
        AskedLogs(n, s1, s', i + 1, head, report);
        AtLastJoins(s, [Attempt(i, n.blocks(s.clock, i))], s1, Since(s1, s'), s');
      }
    }
  }

  lemma AskedLogs(n: Node, s: Loop, s': Loop, i: int, head: int, report: Report)
    requires Asked(n, s, s', i, head, report)
    ensures s.attempts <= s'.attempts
  {
  }

  lemma NothingAsked(n: Node, s: Loop, i: int, head: int, report: Report)
    requires !report.FailedAt?
    ensures Asked(n, s, s, i, head, report) && Since(s, s) == [] && AtLast(s, [], s)
  {
  }

  lemma AskedLower(n: Node, s: Loop, s': Loop, i: int, head: int, report: Report)
    requires Asked(n, s, s', i + 1, head, report)
    ensures Asked(n, s, s', i, head, report)
  {
  }

  lemma OneFails(n: Node, s: Loop, i: U64, head: U64)
    requires i < head && Due(s.interval, i) && n.blocks(s.clock, i).None?
    ensures
      && Asked(n, s, FetchBlock(n, s, i), i, head, FailedAt(i))
      && Since(s, FetchBlock(n, s, i)) == [Attempt(i, n.blocks(s.clock, i))]
  {
    assert Since(s, FetchBlock(n, s, i)) == [Attempt(i, n.blocks(s.clock, i))];
  }

  /** One tick reads the head and asks for nothing if that fails or is not above the latest block. If it is
      above, only due numbers strictly between the two are asked for, in turn, until one fails. The latest
      block ends as the last one answered. */
  lemma TickAsks(n: Node, s: Loop)
    ensures
      var ((s', report), head, asked) := (Tick(n, s), n.heads(s.clock), s.(clock := s.clock + 1));
      && (head.None? <==> report == NoHead)
      && (head.None? || head.value <= s.latest ==> s' == asked && !report.FailedAt?)
      && (head.Some? && s.latest < head.value ==> Asked(n, asked, s', s.latest + 1, head.value, report))
      && s.attempts <= s'.attempts && AtLast(s, Since(s, s'), s')
  {
    hide Scan, Asked;
    var (head, asked) := (n.heads(s.clock), s.(clock := s.clock + 1));
    if head.Some? && s.latest < head.value {
      ScanAsks(n, asked, s.latest + 1, head.value);
      AskedLogs(n, asked, Tick(n, s).0, s.latest + 1, head.value, Tick(n, s).1);
    }
  }

  /** A tick without error hands over exactly the due heights above the latest block and below the head. */
  lemma TickExact(n: Node, s: Loop)
    requires n.heads(s.clock).Some? && Tick(n, s).1.Finished?
    ensures
      var s' := Tick(n, s).0;
      && s.attempts <= s'.attempts
      && Delivered(Since(s, s')) == DueIn(s.interval, s.latest, (n.heads(s.clock).value as int) - 1)
  {
    hide DueIn, Delivered, Scan, Asked, AtLast;
    var (s', head) := (Tick(n, s).0, n.heads(s.clock).value);
    TickAsks(n, s);
    DueInEmpty(s.interval, s.latest);
    if s.latest < head {
      ScanDelivers(n, s.(clock := s.clock + 1), s.latest + 1, head);
      DeliveredConcat(s.attempts, Since(s, s'));
      assert s'.attempts == s.attempts + Since(s, s');
      var (before, added) := (Delivered(s.attempts), Delivered(Since(s, s')));
      assert added == (before + added)[|before|..] == DueIn(s.interval, s.latest, s'.latest);
      DueInSplit(s.interval, s.latest, s'.latest, (head as int) - 1);
    } else {
      DueInNothing(s.interval, s.latest, (head as int) - 1);
      assert Since(s, s') == [];
    }
  }

  lemma DueInNothing(interval: U64, lo: int, hi: int)
    requires hi <= lo
    ensures DueIn(interval, lo, hi) == [] && Delivered([]) == []
  {
  }

  // ----- whole runs of ticks -----

  function Run(n: Node, s: Loop, ticks: nat): Loop {
    if ticks == 0 then s else Tick(n, Run(n, s, ticks - 1)).0
  }

  /** Any number of ticks, any heads (falling ones too), any failures: what was delivered since `s` is
      exactly the due heights of `(s.latest, latest now]`, in order, each once. */
  lemma {:induction false} ExactlyOnce(n: Node, s: Loop, ticks: nat)
    ensures
      var s' := Run(n, s, ticks);
      && s'.interval == s.interval && s.latest <= s'.latest
      && Delivered(s'.attempts) == Delivered(s.attempts) + DueIn(s.interval, s.latest, s'.latest)
  {
    hide DueIn, Delivered, Tick;
    if ticks == 0 {
      DueInEmpty(s.interval, s.latest);
    } else {
      ExactlyOnce(n, s, ticks - 1);
      var before := Run(n, s, ticks - 1);
      TickDelivers(n, before);
      DueInSplit(s.interval, s.latest, before.latest, Tick(n, before).0.latest);
    }
  }

  /** The request at place `i` of the log was made in the tick from `s` to `s'`, for a number between the
      latest block and the head of that tick. */
  ghost predicate AskedBelowHead(n: Node, s: Loop, s': Loop, i: nat) {
    && s.attempts <= s'.attempts && |s.attempts| <= i < |s'.attempts|
    && n.heads(s.clock).Some? && s.latest < s'.attempts[i].number < n.heads(s.clock).value
  }

  /** Every request of a run was made in one of its ticks and is for a number below the head which that
      tick had read; no tick hands over its own head or anything above it. */
  lemma {:induction false} RunAsks(n: Node, s: Loop, ticks: nat, i: nat)
    requires |s.attempts| <= i < |Run(n, s, ticks).attempts|
    ensures
      exists k: nat :: k < ticks && AskedBelowHead(n, Run(n, s, k), Run(n, s, k + 1), i)
                       && Run(n, s, k + 1).attempts[i] == Run(n, s, ticks).attempts[i]
  {
    hide Tick, AtLast;
    if ticks > 0 {
      var (before, after) := (Run(n, s, ticks - 1), Run(n, s, ticks));
      TickAsks(n, before);
      assert before.attempts <= after.attempts;
      if i < |before.attempts| {
        RunAsks(n, s, ticks - 1, i);
      } else {
        assert after.attempts[i] == Since(before, after)[i - |before.attempts|];
        assert AskedBelowHead(n, before, after, i);
      }
    }
  }

  /** After any run the latest block is the last one the node answered in it, number and hash. */
  lemma {:induction false} RunEndsAtLast(n: Node, s: Loop, ticks: nat)
    ensures
      var s' := Run(n, s, ticks);
      s.attempts <= s'.attempts && AtLast(s, Since(s, s'), s')
  {
    hide Tick, AtLast, Asked;
    if ticks == 0 {
      NothingAsked(n, s, 0, 0, Finished);
    } else {
      var (before, after) := (Run(n, s, ticks - 1), Run(n, s, ticks));
      RunEndsAtLast(n, s, ticks - 1);
      TickAsks(n, before);
      assert Since(s, after) == Since(s, before) + Since(before, after);
      AtLastJoins(s, Since(s, before), before, Since(before, after), after);
    }
  }

  /** The work below a fixed height `c` that is still to do. */
  function Backlog(s: Loop, c: int): nat {
    |DueIn(s.interval, s.latest, c)|
  }

  /** Conservation: what is delivered in a run leaves the backlog, one for one, as long as the run has
      not passed `c`; so every delivery is progress and nothing is lost. */
  lemma BacklogConserved(n: Node, s: Loop, ticks: nat, c: int)
    requires Run(n, s, ticks).latest <= c
    ensures
      var s' := Run(n, s, ticks);
      Backlog(s', c) + |Delivered(s'.attempts)| == Backlog(s, c) + |Delivered(s.attempts)|
  {
    ExactlyOnce(n, s, ticks);
    DueInSplit(s.interval, s.latest, Run(n, s, ticks).latest, c);
  }

  /** With work to do below its head, a tick shrinks the backlog, unless its very first request fails. */
  lemma TickProgress(n: Node, s: Loop)
    requires n.heads(s.clock).Some? && Backlog(s, (n.heads(s.clock).value as int) - 1) > 0
    ensures
      var (c, s') := ((n.heads(s.clock).value as int) - 1, Tick(n, s).0);
      Backlog(s', c) < Backlog(s, c) || (Tick(n, s).1.FailedAt? && s'.latest == s.latest)
  {
    var head := n.heads(s.clock).value;
    assert s.latest < head;
    DueInEmpty(s.interval, s.latest);
    ScanDelivers(n, s.(clock := s.clock + 1), s.latest + 1, head);
    var s' := Tick(n, s).0;
    DueInSplit(s.interval, s.latest, s'.latest, (head as int) - 1);
    if s.latest < s'.latest {
      DueInNext(s.interval, s.latest, s'.latest);
    }
  }

  // ----- what one processer sees -----

  function Copies(b: Block, times: nat): seq<Block> {
    seq(times, _ => b)
  }

  lemma CopiesGrow(b: Block, times: nat)
    ensures Copies(b, times + 1) == Copies(b, times) + [b]
  {
  }

  /** The blocks a processer registered under `times` names is handed, in order. */
  function Handed(attempts: seq<Attempt>, times: nat): seq<Block> {
    if attempts == [] then []
    else
      var last := attempts[|attempts| - 1];
      Handed(attempts[..|attempts| - 1], times) + if last.got.Some? then Copies(last.got.value, times) else []
  }

  lemma HandedNone()
    ensures forall times: nat :: Handed([], times) == []
  {
  }

  lemma HandedOne(attempts: seq<Attempt>, a: Attempt, times: nat)
    ensures Handed(attempts + [a], times) ==
            Handed(attempts, times) + if a.got.Some? then Copies(a.got.value, times) else []
  {
    assert (attempts + [a])[..|attempts|] == attempts;
  }

  /** What two stretches of a run hand over is handed over by the whole. */
  lemma {:induction false} HandedConcat(one: seq<Attempt>, two: seq<Attempt>, times: nat)
    ensures Handed(one + two, times) == Handed(one, times) + Handed(two, times)
  {
    if two == [] {
      assert one + two == one;
    } else {
      var rest, last := two[..|two| - 1], two[|two| - 1];
      HandedConcat(one, rest, times);
      assert one + two == (one + rest) + [last] && two == rest + [last];
      HandedOne(one + rest, last, times);
      HandedOne(rest, last, times);
    }
  }

  /** Block by block the answer the node gave to the request for the number at the same place. */
  ghost predicate Answers(attempts: seq<Attempt>, numbers: seq<int>, blocks: seq<Block>) {
    && |blocks| == |numbers|
    && forall i :: 0 <= i < |numbers| ==>
         0 <= numbers[i] < MOD && Attempt(numbers[i], Some(blocks[i])) in attempts
  }

  /** Under one name: one block for each delivered number, the one the node gave for that number. */
  lemma {:induction false} HandedOnce(attempts: seq<Attempt>)
    ensures Answers(attempts, Delivered(attempts), Handed(attempts, 1))
  {
    if attempts != [] {
      var rest, last := attempts[..|attempts| - 1], attempts[|attempts| - 1];
      HandedOnce(rest);
      assert attempts == rest + [last];
      HandedOne(rest, last, 1);
      DeliveredOne(rest, last);
    }
  }

  lemma {:induction false} RunKeeps(n: Node, s: Loop, ticks: nat)
    ensures s.attempts <= Run(n, s, ticks).attempts
  {
    hide Scan;
    if ticks > 0 {
      RunKeeps(n, s, ticks - 1);
      var before := Run(n, s, ticks - 1);
      var head := n.heads(before.clock);
      ScanKeeps(n, before.(clock := before.clock + 1), before.latest + 1, if head.Some? then head.value else 0);
    }
  }

  /** Any stretch of a run as a processer registered under one name sees it: every due height between
      the latest blocks at its ends once, in order, with the block the node answered for it. */
  lemma ProcesserSeesEachDueOnce(n: Node, s: Loop, ticks: nat)
    ensures
      var s' := Run(n, s, ticks);
      var due := DueIn(s.interval, s.latest, s'.latest);
      && s.attempts <= s'.attempts
      && Answers(Since(s, s'), due, Handed(Since(s, s'), 1))
      && Increasing(due)
      && (forall x: int ::
            x in due <==> s.latest < x <= s'.latest && (s.interval <= 1 || x % s.interval == 0))
  {
    hide Handed, Delivered, DueIn, Run, Answers, Due, Increasing;
    var s' := Run(n, s, ticks);
    RunKeeps(n, s, ticks);
    ExactlyOnce(n, s, ticks);
    DeliveredConcat(s.attempts, Since(s, s'));
    assert s'.attempts == s.attempts + Since(s, s');
    var (before, added) := (Delivered(s.attempts), Delivered(Since(s, s')));
    assert added == (before + added)[|before|..] == DueIn(s.interval, s.latest, s'.latest);
    HandedOnce(Since(s, s'));
    DueInMeaning(s.interval, s.latest, s'.latest);
  }
}
