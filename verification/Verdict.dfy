/** A search judged by its log alone, in any world and from any state: which heights it asks first, what it
    makes of the answers, what it stores, and when it reports an error. */
module Verdict {
  import opened Machine
  import opened World
  import opened Lookups
  import opened Micro
  import opened Search
  import opened Bracketing
  import opened Refinement
  import opened Caching

  /** The answers given since `s`. */
  function Logged(s: State, s': State): seq<Probe>
    requires s.log <= s'.log
  {
    s'.log[|s.log|..]
  }

  ghost predicate AllAnswered(added: seq<Probe>) {
    forall i :: 0 <= i < |added| ==> added[i].answer.Ok?
  }

  /** An error is reported at once and as it is, and a result means that there was none. */
  ghost predicate Reports(added: seq<Probe>, result: Outcome<Height>) {
    if result.Ok? then AllAnswered(added)
    else
      && added != [] && added[|added| - 1].answer == Err(result.fault)
      && AllAnswered(added[..|added| - 1])
  }

  /** The call that made the search fail is the last one it made. */
  ghost predicate Genuine(w: World, s': State, result: Outcome<Height>) {
    result.Err? ==> s'.clock > 0 && w.down(s'.clock - 1, result.fault)
  }

  /** `r` is the greatest of `base` and the heights answered "finalized". */
  ghost predicate Greatest(added: seq<Probe>, base: Height, r: Height) {
    && base <= r
    && (r == base || Probe(r, Ok(true)) in added)
    && forall h: Height :: Probe(h, Ok(true)) in added ==> h <= r
  }

  /** The stored height is one below a height answered "finalized", if it moved. */
  ghost predicate StoresBelow(added: seq<Probe>, last: Height, last': Height) {
    last <= last' && (last' == last || (last' + 1 < HEIGHT_LIMIT && Probe(last' + 1, Ok(true)) in added))
  }

  lemma LoggedFirst(s: State, s1: State, s': State, p: Probe)
    requires s1.log == s.log + [p] && s1.log <= s'.log
    ensures s.log <= s'.log && Logged(s, s') == [p] + Logged(s1, s')
  {
  }

  lemma ReportsLater(p: Probe, added: seq<Probe>, result: Outcome<Height>)
    requires p.answer.Ok? && Reports(added, result)
    ensures Reports([p] + added, result)
  {
    if result.Err? {
      assert ([p] + added)[..|added|] == [p] + added[..|added| - 1];
    }
  }

  lemma ReportsNow(p: Probe, fault: Fault)
    requires p.answer == Err(fault)
    ensures Reports([p], Err(fault))
  {
  }

  // ----- the bisection -----

  /** Without error the bisection ends on the greatest height answered "finalized", and what it has stored
      by then, or when it fails, is one below the greatest such height. */
  lemma {:induction false} FromToVerdict(w: World, s: State, from: Height, to: Height)
    requires from < to
    ensures
      var (s', result) := FromTo(w, s, from, to);
      && s.log <= s'.log
      && Reports(Logged(s, s'), result) && Genuine(w, s', result)
      && (result.Ok? ==> Greatest(Logged(s, s'), from, result.value))
      && StoresBelow(Logged(s, s'), s.last, s'.last)
      && forall h: Height :: Probe(h, Ok(true)) in Logged(s, s') ==> from < h < to && h - 1 <= s'.last
    decreases if from < to then to - from else 0
  {
    hide ByNumber, Mid, FromTo, Reports;
    if from + 1 == to {
      FromToEnd(w, s, from, to);
      ReportsNothing(from);
    } else {
      var check := Target(Bisect(from, to));
      var (s1, answer) := ByNumber(w, s, check);
      FromToStep(w, s, from, to, check, s1, answer);
      ProbeFrame(w, s, check);
      var (p, (s', result)) := (Probe(check, answer), FromTo(w, s, from, to));
      if answer.Err? {
        ErrorsAreGenuine(w, s, check);
        ReportsNow(p, answer.fault);
        assert Logged(s, s') == [p];
      } else {
        var s2 := if answer.value then SetLast(s1, check - 1) else s1;
        if answer.value {
          FromToVerdict(w, s2, check, to);
        } else {
          FromToVerdict(w, s2, from, check);
        }
        LoggedFirst(s, s2, s', p);
        ReportsLater(p, Logged(s2, s'), result);
      }
    }
  }

  lemma ReportsNothing(r: Height)
    ensures Reports([], Ok(r))
  {
  }

  // ----- the whole search, its head above its start -----

  /** From the check of the height after `from` on, or from the check 256 below the head on: what the
      search answers and stores, by its log. */
  ghost predicate Verdict(w: World, s: State, s': State, from: Height, head: Height, result: Outcome<Height>) {
    && s.log <= s'.log
    && Reports(Logged(s, s'), result) && Genuine(w, s', result)
    && (result.Ok? ==>
          var r := result.value;
          && Greatest(Logged(s, s'), from, r) && r <= head
          && (r == head || r + 1 == head || Probe(r + 1, Ok(false)) in Logged(s, s'))
          && s'.last == if from + 1 == head || r <= s.last then s.last else r)
    && (result.Err? ==> StoresBelow(Logged(s, s'), s.last, s'.last))
  }

  /** The bisection of the search and its final store. */
  lemma SplitVerdict(w: World, s: State, from: Height, head: Height)
    requires from < head
    ensures
      var (s', result) := Run(w, s, Split(from, head));
      && s.log <= s'.log
      && Reports(Logged(s, s'), result) && Genuine(w, s', result)
      && (result.Ok? ==>
            var r := result.value;
            && Greatest(Logged(s, s'), from, r) && r < head
            && (r + 1 == head || Probe(r + 1, Ok(false)) in Logged(s, s'))
            && s'.last == if r <= s.last then s.last else r)
      && (result.Err? ==> StoresBelow(Logged(s, s'), s.last, s'.last))
  {
    hide Run, Split, FromTo, Reports, Genuine;
    SplitIsFromTo(w, s, from, head);
    FromToVerdict(w, s, from, head);
    EndsOnItsAnswers(w, s, from, head);
    GenuineStored(w, FromTo(w, s, from, head));
  }

  lemma GenuineProbe(w: World, s: State, h: Height)
    requires ByNumber(w, s, h).1.Err?
    ensures Genuine(w, ByNumber(w, s, h).0, Err(ByNumber(w, s, h).1.fault))
  {
    hide ByNumber;
    ErrorsAreGenuine(w, s, h);
  }

  lemma GenuineAnswer(w: World, s': State, r: Height)
    ensures Genuine(w, s', Ok(r))
  {
  }

  lemma GenuineStored(w: World, r: (State, Outcome<Height>))
    requires Genuine(w, r.0, r.1)
    ensures Genuine(w, Stored(r).0, r.1)
  {
  }

  /** The check of the height after `from`: alone if that is the head, before the bisection if not. */
  lemma AfterJumpVerdict(w: World, s: State, head: Height, from: Height)
    requires from < head
    ensures
      var (s', result) := Run(w, s, AfterJump(head, from));
      && Verdict(w, s, s', from, head, result)
      && Logged(s, s') != [] && Logged(s, s')[0].height == from + 1
      && (from + 1 == head ==> |Logged(s, s')| == 1)
  {
    hide ByNumber, Run, Split, Reports, Genuine;
    var c := AfterJump(head, from);
    var (s1, answer) := ByNumber(w, s, from + 1);
    ProbeFrame(w, s, from + 1);
    RunAsk(w, s, c);
    var (p, (s', result)) := (Probe(from + 1, answer), Run(w, s, c));
    if answer.Err? {
      GenuineProbe(w, s, from + 1);
      RunDone(w, s1, Err(answer.fault));
      ReportsNow(p, answer.fault);
      assert Logged(s, s') == [p];
    } else if from + 1 == head {
      RunDone(w, s1, Ok(if answer.value then head else from));
      ReportsNothing(result.value);
      ReportsLater(p, [], result);
      GenuineAnswer(w, s1, result.value);
      assert Logged(s, s') == [p] == [p] + [];
    } else {
      SplitVerdict(w, s1, if answer.value then from + 1 else from, head);
      LoggedFirst(s, s1, s', p);
      ReportsLater(p, Logged(s1, s'), result);
    }
  }

  /** The heights asked first when head - 1 was not answered "finalized": 256 below the head if that is
      above the start, then the height after the better of the two starts. */
  ghost predicate Opening(added: seq<Probe>, from: Height, head: Height) {
    && added != []
    && (from + 1 == head ==> |added| == 1)
    && if from < head - 256 then
         && added[0].height == head - 256
         && (added[0].answer.Ok? ==>
               |added| > 1 && added[1].height == (if added[0].answer.value then head - 256 else from) + 1)
       else added[0].height == from + 1
  }

  lemma AfterTopVerdict(w: World, s: State, head: Height, from: Height)
    requires from < head
    ensures
      var (s', result) := Run(w, s, AfterTop(head, from));
      Verdict(w, s, s', from, head, result) && Opening(Logged(s, s'), from, head)
  {
    hide ByNumber, Run, AfterJump, Reports;
    if from < head - FAST_CHECK {
      var jump: Height := head - FAST_CHECK;
      var c := Jump(head, from);
      var (s1, answer) := ByNumber(w, s, jump);
      ProbeFrame(w, s, jump);
      RunAsk(w, s, c);
      var (p, (s', result)) := (Probe(jump, answer), Run(w, s, c));
      if answer.Err? {
        ErrorsAreGenuine(w, s, jump);
        RunDone(w, s1, Err(answer.fault));
        ReportsNow(p, answer.fault);
        assert Logged(s, s') == [p];
      } else {
        AfterJumpVerdict(w, s1, head, if answer.value then jump else from);
        LoggedFirst(s, s1, s', p);
        ReportsLater(p, Logged(s1, s'), result);
      }
    } else {
      AfterJumpVerdict(w, s, head, from);
    }
  }

  /** Any search whose head is above its start asks head - 1 first. If that is answered "finalized" it
      answers it at once and stores nothing. If not, be it by an error, the rest of its log decides: the
      answer is the greatest of the start and the heights answered "finalized", the height after it is the
      head or was answered "not finalized", and it is stored unless the head is next to the start. */
  lemma SearchVerdict(w: World, s: State)
    requires !w.down(s.clock, HeadCall) && From(s.last) < w.heads(s.clock)
    ensures
      var (head, from) := (w.heads(s.clock), From(s.last));
      var (s', result) := Query(w, s);
      && s.log <= s'.log && Logged(s, s') != []
      && var first := Logged(s, s')[0];
      && first.height == head - 1
      && (first.answer == Ok(true) ==> |Logged(s, s')| == 1 && result == Ok(head - 1) && s'.last == s.last)
      && (first.answer != Ok(true) ==>
            var s1 := ByNumber(w, Tick(s), head - 1).0;
            && s1.last == s.last && s1.log == s.log + [first]
            && Verdict(w, s1, s', from, head, result)
            && Opening(Logged(s1, s'), from, head))
  {
    hide ByNumber, Run, AfterTop, Query, Verdict, Opening;
    QueryUnfold(w, s);
    var (head, s0) := (w.heads(s.clock), Tick(s));
    var (s1, answer) := ByNumber(w, s0, head - 1);
    ProbeFrame(w, s0, head - 1);
    RunAsk(w, s0, Top(head, From(s.last)));
    if answer == Ok(true) {
      RunDone(w, s1, Ok(head - 1));
    } else {
      AfterTopVerdict(w, s1, head, From(s.last));
      VerdictLogs(w, s1, Query(w, s).0, From(s.last), head, Query(w, s).1);
    }
  }

  lemma VerdictLogs(w: World, s: State, s': State, from: Height, head: Height, result: Outcome<Height>)
    requires Verdict(w, s, s', from, head, result)
    ensures s.log <= s'.log && Reports(Logged(s, s'), result) && Genuine(w, s', result)
  {
  }

  /** A head that is the stored height is answered without a check. */
  lemma RestVerdict(w: World, s: State)
    requires !w.down(s.clock, HeadCall) && w.heads(s.clock) == From(s.last)
    ensures Query(w, s) == (Tick(s), Ok(From(s.last)))
  {
    hide Run, Query;
    QueryUnfold(w, s);
    RunDone(w, Tick(s), Ok(From(s.last)));
  }

  // ----- errors -----

  lemma LowSplitReports(w: World, s: State, head: Height)
    requires head < From(s.last)
    ensures
      var (s', result) := Run(w, s, Split(From(s.last), head));
      s.log <= s'.log && Reports(Logged(s, s'), result) && Genuine(w, s', result)
  {
    hide Run, Split, FromTo, Reports, Genuine;
    SplitIsFromTo(w, s, From(s.last), head);
    FromToSwap(w, s, From(s.last), head);
    FromToVerdict(w, s, head, From(s.last));
    GenuineStored(w, FromTo(w, s, head, From(s.last)));
  }

  /** The checks whose errors count: all but a first one at head - 1 that failed. */
  function Counted(added: seq<Probe>, start: Height, head: Height): seq<Probe> {
    if 1 < head && head != start && added != [] && added[0].answer.Err? then added[1..] else added
  }

  /** When a search reports an error, whatever the world, the state and the head. It fails at once when the
      head cannot be read. Otherwise the error of the check of head - 1, which comes first, is swallowed;
      any other check that fails is the last thing the search does, and its error, that of the last call
      made, is what the search returns; and an answer means that no other check failed. */
  lemma ErrorsReported(w: World, s: State)
    ensures
      var (head, start) := (w.heads(s.clock), From(s.last));
      var (s', result) := Query(w, s);
      && s.log <= s'.log
      && (w.down(s.clock, HeadCall) ==> (s', result) == (Tick(s), Err(HeadCall)))
      && (!w.down(s.clock, HeadCall) ==>
            var added := Logged(s, s');
            && (1 < head && head != start ==> added != [] && added[0].height == head - 1)
            && Reports(Counted(added, start, head), result) && Genuine(w, s', result)
            && forall i :: 0 <= i < |added| && added[i].answer.Err?
                 && !(i == 0 && 1 < head && head != start)
                 ==> i == |added| - 1 && result == Err(added[i].answer.fault))
  {
    hide ByNumber, Run, Split, Query;
    var (head, s0) := (w.heads(s.clock), Tick(s));
    if w.down(s.clock, HeadCall) {
      QueryHeadDown(w, s);
    } else if head == From(s.last) {
      RestVerdict(w, s);
    } else {
      QueryUnfold(w, s);
      var (s', result) := Query(w, s);
      if head <= 1 {
        LowSplitReports(w, s0, head);
      } else {
        var (s1, answer) := ByNumber(w, s0, head - 1);
        ProbeFrame(w, s0, head - 1);
        RunAsk(w, s0, Top(head, From(s.last)));
        var p := Probe(head - 1, answer);
        if answer == Ok(true) {
          RunDone(w, s1, Ok(head - 1));
          assert Logged(s, s') == [p];
        } else {
          RestReports(w, s1, head);
          LoggedFirst(s, s1, s', p);
          if answer.Ok? {
            ReportsLater(p, Logged(s1, s'), result);
          }
          assert Counted(Logged(s, s'), From(s.last), head) ==
                 if answer.Ok? then Logged(s, s') else Logged(s1, s');
        }
      }
    }
  }

  lemma RestReports(w: World, s: State, head: Height)
    requires head != From(s.last)
    ensures
      var (s', result) := Run(w, s, AfterTop(head, From(s.last)));
      s.log <= s'.log && Reports(Logged(s, s'), result) && Genuine(w, s', result)
  {
    hide Run, Split, Verdict, Reports, Genuine;
    if From(s.last) < head {
      AfterTopVerdict(w, s, head, From(s.last));
      var (s', result) := Run(w, s, AfterTop(head, From(s.last)));
      VerdictLogs(w, s, s', From(s.last), head, result);
    } else {
      LowSplitReports(w, s, head);
    }
  }
}
