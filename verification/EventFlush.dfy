/**
 Flushing buffered events in batches (EventHTTPTransport.flush in
 internal/transport/events.go), alone and while producers keep pushing.
 */
module EventFlush {
  import opened Prelude
  import opened Events

  /** How posting a batch ends, after its retries: taken, refused as such (4xx), or failed. */
  datatype Verdict = Taken | BadBatch | Failed

  /** Where the drained events went. */
  datatype Sorted<T> = Sorted(taken: seq<T>, refused: seq<T>, unsent: seq<T>)

  function BatchSize(configured: int): (n: nat)
    ensures n >= 1 && (configured >= 1 ==> n == configured) && (configured < 1 ==> n == 200)
  {
    if configured <= 0 then 200 else configured
  }

  /** Sending events[from..] in batches of n, the k-th verdict next, until one fails. */
  function Send<T>(events: seq<T>, n: nat, verdict: nat -> Verdict, from: nat, k: nat): Sorted<T>
    requires n >= 1 && from <= |events|
    decreases |events| - from
  {
    if from == |events| then Sorted([], [], [])
    else
      var end := Min(from + n, |events|);
      match verdict(k)
      case Failed => Sorted([], [], events[from..])
      case Taken => var r := Send(events, n, verdict, end, k + 1); r.(taken := events[from..end] + r.taken)
      case BadBatch => var r := Send(events, n, verdict, end, k + 1); r.(refused := events[from..end] + r.refused)
  }

  lemma SplitBag<T>(events: seq<T>, from: nat, end: nat)
    requires from <= end <= |events|
    ensures multiset(events[from..]) == multiset(events[from..end]) + multiset(events[end..])
  {
    assert events[from..] == events[from..end] + events[end..];
  }

  /** Every event is taken, refused or unsent. */
  lemma {:induction false} SendSorts<T>(events: seq<T>, n: nat, verdict: nat -> Verdict, from: nat, k: nat)
    requires n >= 1 && from <= |events|
    ensures var r := Send(events, n, verdict, from, k);
            multiset(events[from..]) == multiset(r.taken) + multiset(r.refused) + multiset(r.unsent)
    decreases |events| - from
  {
    if from < |events| && !verdict(k).Failed? {
      var end := Min(from + n, |events|);
      SendSorts(events, n, verdict, end, k + 1);
      SplitBag(events, from, end);
    }
  }

  /** The unsent ones are the rest of the events, in order. */
  lemma {:induction false} UnsentIsSuffix<T>(events: seq<T>, n: nat, verdict: nat -> Verdict, from: nat, k: nat)
    requires n >= 1 && from <= |events|
    ensures var u := Send(events, n, verdict, from, k).unsent;
            |u| <= |events| - from && u == events[|events| - |u|..]
    decreases |events| - from
  {
    if from < |events| && !verdict(k).Failed? {
      UnsentIsSuffix(events, n, verdict, Min(from + n, |events|), k + 1);
    }
  }

  // ---- which verdict sends events where ----

  /** The events from `from` on in batches of n; the last may be shorter. */
  function Batches<T>(events: seq<T>, n: nat, from: nat): (bs: seq<seq<T>>)
    requires n >= 1 && from <= |events|
    ensures forall b :: 0 <= b < |bs| ==> bs[b] != [] && |bs[b]| <= n
    ensures forall b :: 0 <= b < |bs| - 1 ==> |bs[b]| == n
    decreases |events| - from
  {
    if from == |events| then []
    else
      var end := Min(from + n, |events|);
      [events[from..end]] + Batches(events, n, end)
  }

  function Concat<T>(bs: seq<seq<T>>): seq<T> {
    if bs == [] then [] else bs[0] + Concat(bs[1..])
  }

  /** The batches that got this verdict, in order; the first of them got the k-th verdict. */
  function Judged<T>(bs: seq<seq<T>>, verdict: nat -> Verdict, k: nat, v: Verdict): seq<T> {
    if bs == [] then []
    else (if verdict(k) == v then bs[0] else []) + Judged(bs[1..], verdict, k + 1, v)
  }

  lemma {:induction false} BatchesJoin<T>(events: seq<T>, n: nat, from: nat)
    requires n >= 1 && from <= |events|
    ensures Concat(Batches(events, n, from)) == events[from..]
    decreases |events| - from
  {
    if from < |events| {
      var end := Min(from + n, |events|);
      BatchesJoin(events, n, end);
      var rest := Batches(events, n, end);
      assert ([events[from..end]] + rest)[1..] == rest;
      assert events[from..] == events[from..end] + events[end..];
    }
  }

  /** No verdict from k up to m is a failure. */
  ghost predicate NoFailure(verdict: nat -> Verdict, k: nat, m: nat) {
    forall i :: k <= i < m ==> !verdict(i).Failed?
  }

  /** None of the first f of `count` batches failed, and the next, if there is one, did. */
  ghost predicate FailsAt(verdict: nat -> Verdict, k: nat, count: nat, f: nat) {
    f <= count && NoFailure(verdict, k, k + f) && (f < count ==> verdict(k + f).Failed?)
  }

  /** What a batch with this verdict sorts out. */
  function Part<T>(batch: seq<T>, v: Verdict): Sorted<T> {
    Sorted(if v == Taken then batch else [], if v == BadBatch then batch else [], [])
  }

  lemma SendUnfolds<T>(events: seq<T>, n: nat, verdict: nat -> Verdict, from: nat, k: nat)
    requires n >= 1 && from < |events| && !verdict(k).Failed?
    ensures var end := Min(from + n, |events|);
            Send(events, n, verdict, from, k) ==
            After(Part(events[from..end], verdict(k)), Send(events, n, verdict, end, k + 1))
  {
    var r := Send(events, n, verdict, Min(from + n, |events|), k + 1);
    assert [] + r.taken == r.taken && [] + r.refused == r.refused;
  }

  /** The first f batches by their verdicts, and the rest unsent. */
  function ByVerdict<T>(bs: seq<seq<T>>, verdict: nat -> Verdict, k: nat, f: nat): Sorted<T>
    requires f <= |bs|
  {
    Sorted(Judged(bs[..f], verdict, k, Taken), Judged(bs[..f], verdict, k, BadBatch), Concat(bs[f..]))
  }

  lemma ByVerdictCons<T>(first: seq<T>, rest: seq<seq<T>>, verdict: nat -> Verdict, k: nat, f: nat)
    requires 1 <= f <= |rest| + 1
    ensures ByVerdict([first] + rest, verdict, k, f) ==
            After(Part(first, verdict(k)), ByVerdict(rest, verdict, k + 1, f - 1))
  {
    var bs := [first] + rest;
    assert bs[..f][1..] == rest[..f - 1] && bs[f..] == rest[f - 1..];
  }

  /**
   Up to the first batch that fails, what was judged taken is taken and what
   was judged bad is refused, in order; that batch and all after it are unsent.
   With no failure nothing is.
   */
  lemma {:induction false} SendIs<T>(events: seq<T>, n: nat, verdict: nat -> Verdict, from: nat, k: nat, f: nat)
    requires n >= 1 && from <= |events| && FailsAt(verdict, k, |Batches(events, n, from)|, f)
    ensures Send(events, n, verdict, from, k) == ByVerdict(Batches(events, n, from), verdict, k, f)
    decreases |events| - from
  {
    if from < |events| {
      if f == 0 {
        var bs := Batches(events, n, from);
        BatchesJoin(events, n, from);
        assert bs[0..] == bs && bs[..0] == [];
      } else {
        var end := Min(from + n, |events|);
        SendIs(events, n, verdict, end, k + 1, f - 1);
        SendUnfolds(events, n, verdict, from, k);
        ByVerdictCons(events[from..end], Batches(events, n, end), verdict, k, f);
      }
    }
  }

  /** With no failed batch before the j-th and the j-th failing, what is unsent starts at event j * n. */
  lemma {:induction false} UnsentFrom<T>(events: seq<T>, n: nat, verdict: nat -> Verdict, from: nat, k: nat, j: nat)
    requires n >= 1 && from + j * n < |events| && NoFailure(verdict, k, k + j) && verdict(k + j).Failed?
    ensures Send(events, n, verdict, from, k).unsent == events[from + j * n..]
    decreases j
  {
    if j > 0 {
      OneLess(j, n);
      UnsentFrom(events, n, verdict, from + n, k + 1, j - 1);
    }
  }

  lemma OneLess(j: nat, n: nat)
    requires j > 0
    ensures j * n == n + (j - 1) * n && (j - 1) * n >= 0
  {
  }

  /** The flush succeeds if and only if no batch fails. */
  lemma {:induction false} SentIff<T>(events: seq<T>, n: nat, verdict: nat -> Verdict, from: nat, k: nat)
    requires n >= 1 && from <= |events|
    ensures Send(events, n, verdict, from, k).unsent == [] <==>
            NoFailure(verdict, k, k + |Batches(events, n, from)|)
    decreases |events| - from
  {
    if from < |events| {
      SentIff(events, n, verdict, Min(from + n, |events|), k + 1);
    }
  }

  /**
   flush with nobody pushing meanwhile. After a failure the buffer holds exactly
   the unsent events in their original order, and nothing was dropped.
   */
  method Flush<T(0)>(buf: RingBuffer<T>, paused: bool, configured: int, verdict: nat -> Verdict)
    returns (ok: bool, sorted: Sorted<T>)
    requires buf.Valid()
    modifies buf, buf.buf
    ensures buf.Valid() && buf.dropped == old(buf.dropped)
    ensures paused ==> ok && buf.Contents() == old(buf.Contents()) && sorted == Sorted([], [], [])
    ensures !paused ==> sorted == Send(old(buf.Contents()), BatchSize(configured), verdict, 0, 0)
    ensures !paused ==> buf.Contents() == sorted.unsent && (ok <==> sorted.unsent == [])
    ensures !paused ==>
              var posted := |Batches(old(buf.Contents()), BatchSize(configured), 0)|;
              ok <==> NoFailure(verdict, 0, posted)
  {
    sorted := Sorted([], [], []);
    if paused {
      return true, sorted;
    }
    var all := buf.Drain();
    sorted := SendBatches(all, BatchSize(configured), verdict);
    SentIff(all, BatchSize(configured), verdict, 0, 0);
    ok := sorted.unsent == [];
    if !ok {
      UnsentIsSuffix(all, BatchSize(configured), verdict, 0, 0);
      Requeue(buf, sorted.unsent);
    }
  }

  /** The batch loop of flush, up to the first failure. */
  method SendBatches<T>(all: seq<T>, n: nat, verdict: nat -> Verdict) returns (sorted: Sorted<T>)
    requires n >= 1
    ensures sorted == Send(all, n, verdict, 0, 0)
  {
    sorted := Sorted([], [], []);
    var i := 0;
    var k := 0;
    while i < |all|
      invariant 0 <= i <= |all| && sorted.unsent == []
      invariant Send(all, n, verdict, 0, 0) == After(sorted, Send(all, n, verdict, i, k))
      decreases |all| - i
    {
      var end := Min(i + n, |all|);
      AfterBatch(sorted, all[i..end], Send(all, n, verdict, end, k + 1));
      match verdict(k) {
        case Taken =>
          sorted := sorted.(taken := sorted.taken + all[i..end]);
        case BadBatch =>
          sorted := sorted.(refused := sorted.refused + all[i..end]);
        case Failed =>
          sorted := sorted.(unsent := all[i..]);
          return;
      }
      i := end;
      k := k + 1;
    }
  }

  /** First what a produced, then what b did. */
  function After<T>(a: Sorted<T>, b: Sorted<T>): Sorted<T> {
    Sorted(a.taken + b.taken, a.refused + b.refused, b.unsent)
  }

  lemma AfterBatch<T>(a: Sorted<T>, batch: seq<T>, b: Sorted<T>)
    ensures After(a, b.(taken := batch + b.taken)) == After(a.(taken := a.taken + batch), b)
    ensures After(a, b.(refused := batch + b.refused)) == After(a.(refused := a.refused + batch), b)
  {
    assert a.taken + (batch + b.taken) == a.taken + batch + b.taken;
    assert a.refused + (batch + b.refused) == a.refused + batch + b.refused;
  }

  method Requeue<T(0)>(buf: RingBuffer<T>, back: seq<T>)
    requires buf.Valid() && buf.Contents() == [] && |back| <= buf.cap
    modifies buf, buf.buf
    ensures buf.Valid() && buf.Contents() == back && buf.dropped == old(buf.dropped)
  {
    for j := 0 to |back|
      invariant buf.Valid() && buf.Contents() == back[..j] && buf.dropped == old(buf.dropped)
    {
      buf.Push(back[j]);
      assert back[..j + 1] == back[..j] + [back[j]];
    }
    assert back[..|back|] == back;
  }

  // ---- producers pushing at any time ----

  /** Idle; sending what is left of a drain; or putting it back one by one after a failure. */
  datatype Flight<T> = Idle | Sending(rest: seq<T>) | Returning(rest: seq<T>)

  datatype System<T> = System(
    queue: seq<T>, dropped: nat, flight: Flight<T>,
    produced: seq<T>, taken: seq<T>, refused: seq<T>, lost: seq<T>)

  datatype Step<T> = Produce(e: T) | Begin | Batch(verdict: Verdict) | PutBack

  function InFlight<T>(s: System<T>): seq<T> {
    if s.flight.Idle? then [] else s.flight.rest
  }

  /** RingBuffer.Push as the whole system sees it. */
  function Pushed<T>(s: System<T>, cap: nat, e: T): System<T>
  {
    if |s.queue| == cap && cap > 0 then
      s.(queue := Enqueue(s.queue, cap, e), dropped := s.dropped + 1, lost := s.lost + [s.queue[0]])
    else s.(queue := Enqueue(s.queue, cap, e))
  }

  predicate Enabled<T>(s: System<T>, step: Step<T>) {
    match step
    case Produce(_) => true
    case Begin => s.flight.Idle?
    case Batch(_) => s.flight.Sending? && s.flight.rest != []
    case PutBack => s.flight.Returning? && s.flight.rest != []
  }

  function Next<T>(s: System<T>, cap: nat, n: nat, step: Step<T>): System<T>
    requires Enabled(s, step)
  {
    match step
    case Produce(e) => Pushed(s.(produced := s.produced + [e]), cap, e)
    case Begin => s.(queue := [], flight := if s.queue == [] then Idle else Sending(s.queue))
    case Batch(v) =>
      var end := Min(n, |s.flight.rest|);
      var batch, rest := s.flight.rest[..end], s.flight.rest[end..];
      var flight := if rest == [] then Idle else Sending(rest);
      (match v
       case Taken => s.(taken := s.taken + batch, flight := flight)
       case BadBatch => s.(refused := s.refused + batch, flight := flight)
       case Failed => s.(flight := Returning(s.flight.rest)))
    case PutBack =>
      var rest := s.flight.rest[1..];
      Pushed(s.(flight := if rest == [] then Idle else Returning(rest)), cap, s.flight.rest[0])
  }

  /** Nothing is lost unseen, nothing is invented. */
  ghost predicate Conserved<T>(s: System<T>, cap: nat) {
    && |s.queue| <= cap && |InFlight(s)| <= cap
    && s.dropped == |s.lost|
    && multiset(s.produced) ==
         multiset(s.taken) + multiset(s.refused) + multiset(s.lost) + multiset(s.queue) + multiset(InFlight(s))
  }

  lemma PushConserves<T>(s: System<T>, cap: nat, e: T)
    requires cap >= 1 && |s.queue| <= cap && s.dropped == |s.lost|
    ensures var t := Pushed(s, cap, e);
            && |t.queue| <= cap && t.dropped == |t.lost|
            && multiset(t.lost) + multiset(t.queue) == multiset(s.lost) + multiset(s.queue) + multiset{e}
            && t.produced == s.produced && t.taken == s.taken && t.refused == s.refused && t.flight == s.flight
  {
    if |s.queue| == cap {
      assert s.queue == [s.queue[0]] + s.queue[1..];
    }
  }

  lemma Regroup<T>(a: multiset<T>, b: multiset<T>, c: multiset<T>, d: multiset<T>, e: multiset<T>)
    ensures a + b + c + d + e == a + b + (c + d) + e
  {
  }

  lemma BatchConserves<T>(s: System<T>, cap: nat, n: nat, v: Verdict)
    requires Conserved(s, cap) && Enabled(s, Batch(v)) && n >= 1
    ensures Conserved(Next(s, cap, n, Batch(v)), cap)
  {
    var rest := s.flight.rest;
    var end := Min(n, |rest|);
    var t := Next(s, cap, n, Batch(v));
    assert rest[0..] == rest && rest[0..end] == rest[..end];
    SplitBag(rest, 0, end);
    if !v.Failed? {
      assert InFlight(t) == rest[end..];
    }
  }

  lemma PutBackConserves<T>(s: System<T>, cap: nat, n: nat)
    requires Conserved(s, cap) && Enabled(s, PutBack) && cap >= 1
    ensures Conserved(Next(s, cap, n, PutBack), cap)
  {
    var rest := s.flight.rest;
    var s0 := s.(flight := if rest[1..] == [] then Idle else Returning(rest[1..]));
    assert rest == [rest[0]] + rest[1..];
    PushConserves(s0, cap, rest[0]);
    var t := Next(s, cap, n, PutBack);
    assert InFlight(t) == rest[1..];
    Regroup(multiset(s.taken), multiset(s.refused), multiset(t.lost), multiset(t.queue), multiset(rest[1..]));
    Regroup(multiset(s.taken), multiset(s.refused), multiset(s.lost), multiset(s.queue),
      multiset{rest[0]} + multiset(rest[1..]));
  }

  lemma StepConserves<T>(s: System<T>, cap: nat, n: nat, step: Step<T>)
    requires Conserved(s, cap) && Enabled(s, step) && cap >= 1 && n >= 1
    ensures Conserved(Next(s, cap, n, step), cap)
  {
    match step {
      case Produce(e) =>
        PushConserves(s.(produced := s.produced + [e]), cap, e);
        var t := Next(s, cap, n, step);
        assert InFlight(t) == InFlight(s);
        Regroup(multiset(s.taken), multiset(s.refused), multiset(t.lost), multiset(t.queue), multiset(InFlight(s)));
        Regroup(multiset(s.taken), multiset(s.refused), multiset(s.lost), multiset(s.queue), multiset(InFlight(s)));
      case Begin =>
      case Batch(v) => BatchConserves(s, cap, n, v);
      case PutBack => PutBackConserves(s, cap, n);
    }
  }

  ghost predicate IsRun<T>(states: seq<System<T>>, steps: seq<Step<T>>, cap: nat, n: nat) {
    && |states| == |steps| + 1 && cap >= 1 && n >= 1
    && states[0] == System([], 0, Idle, [], [], [], [])
    && forall k :: 0 <= k < |steps| ==>
         Enabled(states[k], steps[k]) && states[k + 1] == Next(states[k], cap, n, steps[k])
  }

  /**
   At every step of every interleaving: produced = taken + refused +
   overflow-dropped + buffered + in flight, and the counter tells the drops.
   */
  lemma {:induction false} RunConserves<T>(states: seq<System<T>>, steps: seq<Step<T>>, cap: nat, n: nat, k: nat)
    requires IsRun(states, steps, cap, n) && k <= |steps|
    ensures Conserved(states[k], cap)
  {
    if k > 0 {
      RunConserves(states, steps, cap, n, k - 1);
      StepConserves(states[k - 1], cap, n, steps[k - 1]);
    }
  }

  // ---- flush is a run of the step system ----

  /** Batch steps until nothing is being sent any more. */
  function SendSteps<T>(s: System<T>, cap: nat, n: nat, verdict: nat -> Verdict, k: nat): System<T>
    requires n >= 1 && s.flight.Sending? && s.flight.rest != []
    decreases |s.flight.rest|
  {
    var t := Next(s, cap, n, Batch(verdict(k)));
    if t.flight.Sending? then SendSteps(t, cap, n, verdict, k + 1) else t
  }

  /** PutBack steps until nothing is on its way back any more. */
  function ReturnSteps<T>(s: System<T>, cap: nat, n: nat): System<T>
    requires s.flight.Returning? && s.flight.rest != []
    decreases |s.flight.rest|
  {
    var t := Next(s, cap, n, PutBack);
    if t.flight.Returning? then ReturnSteps(t, cap, n) else t
  }

  /** All steps of one flush, with no event produced meanwhile. */
  function FlushSteps<T>(s: System<T>, cap: nat, n: nat, verdict: nat -> Verdict): System<T>
    requires n >= 1 && s.flight.Idle?
  {
    if s.queue == [] then Next(s, cap, n, Begin)
    else
      SendStepsEnd(Next(s, cap, n, Begin), cap, n, verdict, 0);
      var t := SendSteps(Next(s, cap, n, Begin), cap, n, verdict, 0);
      if t.flight.Returning? then ReturnSteps(t, cap, n) else t
  }

  lemma {:induction false} SendStepsEnd<T>(s: System<T>, cap: nat, n: nat, verdict: nat -> Verdict, k: nat)
    requires n >= 1 && s.flight.Sending? && s.flight.rest != []
    ensures var t := SendSteps(s, cap, n, verdict, k);
            !t.flight.Sending? && (t.flight.Returning? ==> t.flight.rest != [])
    decreases |s.flight.rest|
  {
    var t := Next(s, cap, n, Batch(verdict(k)));
    if t.flight.Sending? { SendStepsEnd(t, cap, n, verdict, k + 1); }
  }

  /** A state after `r` was sorted out of it. */
  function Sent<T>(s: System<T>, r: Sorted<T>): System<T> {
    s.(taken := s.taken + r.taken, refused := s.refused + r.refused,
       flight := if r.unsent == [] then Idle else Returning(r.unsent))
  }

  lemma {:induction false} SendStepsAre<T>(
    s: System<T>, cap: nat, n: nat, verdict: nat -> Verdict, all: seq<T>, from: nat, k: nat)
    requires n >= 1 && from < |all| && s.flight == Sending(all[from..])
    ensures SendSteps(s, cap, n, verdict, k) == Sent(s, Send(all, n, verdict, from, k))
    decreases |all| - from
  {
    var end := Min(from + n, |all|);
    BatchStepIs(s, cap, n, verdict(k), all, from);
    if !verdict(k).Failed? {
      SendUnfolds(all, n, verdict, from, k);
      var t := Next(s, cap, n, Batch(verdict(k)));
      var part := Part(all[from..end], verdict(k));
      if end < |all| {
        SendStepsAre(t, cap, n, verdict, all, end, k + 1);
        SentInTurn(s, t, part, Send(all, n, verdict, end, k + 1));
      } else {
        assert part.taken + [] == part.taken && part.refused + [] == part.refused;
      }
    } else {
      assert s.taken + [] == s.taken && s.refused + [] == s.refused;
    }
  }

  lemma BatchStepIs<T>(s: System<T>, cap: nat, n: nat, v: Verdict, all: seq<T>, from: nat)
    requires n >= 1 && from < |all| && s.flight == Sending(all[from..])
    ensures var end := Min(from + n, |all|);
            var part := Part(all[from..end], v);
            Next(s, cap, n, Batch(v)) ==
            if v.Failed? then s.(flight := Returning(all[from..]))
            else s.(taken := s.taken + part.taken, refused := s.refused + part.refused,
                    flight := if end == |all| then Idle else Sending(all[end..]))
  {
    var end := Min(from + n, |all|);
    assert all[from..][..end - from] == all[from..end] && all[from..][end - from..] == all[end..];
    assert s.taken + [] == s.taken && s.refused + [] == s.refused;
  }

  lemma SentInTurn<T>(s: System<T>, t: System<T>, part: Sorted<T>, r: Sorted<T>)
    requires t == s.(taken := s.taken + part.taken, refused := s.refused + part.refused, flight := t.flight)
    ensures Sent(t, r) == Sent(s, After(part, r))
  {
    assert s.taken + part.taken + r.taken == s.taken + (part.taken + r.taken);
    assert s.refused + part.refused + r.refused == s.refused + (part.refused + r.refused);
  }

  lemma {:induction false} ReturnStepsAre<T>(s: System<T>, cap: nat, n: nat)
    requires s.flight.Returning? && s.flight.rest != [] && |s.queue| + |s.flight.rest| <= cap
    ensures ReturnSteps(s, cap, n) == s.(queue := s.queue + s.flight.rest, flight := Idle)
    decreases |s.flight.rest|
  {
    var rest := s.flight.rest;
    var t := Next(s, cap, n, PutBack);
    assert s.queue + [rest[0]] + rest[1..] == s.queue + rest;
    if rest[1..] != [] { ReturnStepsAre(t, cap, n); }
  }

  /** What flush does is what its steps do: the unsent events are buffered again, in order, and none is dropped. */
  lemma FlushIsSteps<T>(s: System<T>, cap: nat, n: nat, verdict: nat -> Verdict)
    requires n >= 1 && s.flight.Idle? && |s.queue| <= cap
    ensures var r := Send(s.queue, n, verdict, 0, 0);
            FlushSteps(s, cap, n, verdict) ==
            s.(queue := r.unsent, taken := s.taken + r.taken, refused := s.refused + r.refused)
  {
    var r := Send(s.queue, n, verdict, 0, 0);
    if s.queue == [] {
      assert s.taken + [] == s.taken && s.refused + [] == s.refused;
    } else {
      var t := Next(s, cap, n, Begin);
      assert s.queue[0..] == s.queue;
      SendStepsAre(t, cap, n, verdict, s.queue, 0, 0);
      UnsentIsSuffix(s.queue, n, verdict, 0, 0);
      if r.unsent != [] {
        ReturnStepsAre(Sent(t, r), cap, n);
        assert [] + r.unsent == r.unsent;
      }
    }
  }

  /**
   The oldest event is not always the one that is dropped: in a buffer for one
   event, an event pushed while an older one is on its way gives way to it when
   the post fails.
   */
  lemma NewerIsDropped()
    ensures var idle := System([], 0, Idle, [], [], [], []);
            var first := idle.(queue := [1], produced := [1]);
            var sending := first.(queue := [], flight := Sending([1]));
            var second := sending.(queue := [2], produced := [1, 2]);
            var failed := second.(flight := Returning([1]));
            var back := failed.(queue := [1], flight := Idle, dropped := 1, lost := [2]);
            IsRun([idle, first, sending, second, failed, back],
              [Produce(1), Begin, Produce(2), Batch(Failed), PutBack], 1, 1)
  {
    var idle: System<int> := System([], 0, Idle, [], [], [], []);
    var first := idle.(queue := [1], produced := [1]);
    var sending := first.(queue := [], flight := Sending([1]));
    var second := sending.(queue := [2], produced := [1, 2]);
    var failed := second.(flight := Returning([1]));
    assert Next(idle, 1, 1, Produce(1)) == first && Next(first, 1, 1, Begin) == sending;
    assert [1] + [2] == [1, 2];
    assert Next(sending, 1, 1, Produce(2)) == second && Next(second, 1, 1, Batch(Failed)) == failed;
    assert [2][1..] + [1] == [1] && [1][1..] == [];
    assert Next(failed, 1, 1, PutBack) == failed.(queue := [1], flight := Idle, dropped := 1, lost := [2]);
  }
}
