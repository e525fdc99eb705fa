/**
 The shipper (internal/logs/ship.go): batching, the retry loop, and the order
 in which entries are acknowledged.
 */
module LogShip {
  import opened Prelude

  /** Batch limits after NewShipper filled in the defaults. */
  datatype Limits = Limits(lines: nat, bytes: nat)

  function NewLimits(lines: int, bytes: int): (lim: Limits)
    ensures lim.lines >= 1 && lim.bytes >= 1
  {
    Limits(if lines <= 0 then 1000 else lines, if bytes <= 0 then 1048576 else bytes)
  }

  /** Waiting for entries; posting the batch; calling the acks of a settled batch. */
  datatype Phase = Collecting | Posting | Acking

  /**
   The shipper's loop variables. `held` is an entry already received while the
   batch it does not fit into is being delivered.
   */
  datatype Ship<E> = Ship(batch: seq<E>, sizes: seq<nat>, held: seq<(E, nat)>, phase: Phase, acking: seq<E>)

  function Sum(sizes: seq<nat>): nat {
    if sizes == [] then 0 else Sum(sizes[..|sizes| - 1]) + sizes[|sizes| - 1]
  }

  function NewShip<E>(): Ship<E> {
    Ship([], [], [], Collecting, [])
  }

  /** buf.Write, append, and the line-count test. */
  function Append<E>(s: Ship<E>, lim: Limits, e: E, size: nat): Ship<E> {
    var n := |s.batch| + 1;
    s.(batch := s.batch + [e], sizes := s.sizes + [size], phase := if n >= lim.lines then Posting else Collecting)
  }

  function Receive<E>(s: Ship<E>, lim: Limits, e: E, size: nat): Ship<E> {
    if s.batch != [] && Sum(s.sizes) + size > lim.bytes then s.(held := [(e, size)], phase := Posting)
    else Append(s, lim, e, size)
  }

  function TimerFires<E>(s: Ship<E>): Ship<E> {
    if s.batch != [] then s.(phase := Posting) else s
  }

  /** After flush: the buffer is reset and a held entry starts the next batch. */
  function Resume<E>(s: Ship<E>, lim: Limits): Ship<E> {
    var empty := s.(batch := [], sizes := [], held := [], phase := Collecting, acking := []);
    if s.held == [] then empty else Append(empty, lim, s.held[0].0, s.held[0].1)
  }

  /** The post ended: the batch waits for its acks. */
  function Settle<E>(s: Ship<E>): Ship<E> {
    s.(batch := [], sizes := [], phase := Acking, acking := s.batch)
  }

  function AckOne<E>(s: Ship<E>, lim: Limits): Ship<E>
    requires s.acking != []
  {
    var s' := s.(acking := s.acking[1..]);
    if s'.acking == [] then Resume(s', lim) else s'
  }

  /** Entries received and not yet posted to an end. */
  function Pending<E>(s: Ship<E>): seq<E> {
    s.batch + (if s.held == [] then [] else [s.held[0].0])
  }

  ghost predicate FitsLimits(sizes: seq<nat>, lim: Limits) {
    |sizes| <= lim.lines && (Sum(sizes) <= lim.bytes || |sizes| == 1)
  }

  ghost predicate Valid<E>(s: Ship<E>, lim: Limits) {
    && lim.lines >= 1
    && |s.batch| == |s.sizes| && |s.held| <= 1
    && (s.phase.Collecting? ==> s.held == [] && s.acking == [] && |s.batch| < lim.lines)
    && (s.phase.Posting? ==> s.batch != [] && s.acking == [])
    && (s.phase.Acking? ==> s.batch == [] && s.acking != [])
    && (s.batch != [] ==> FitsLimits(s.sizes, lim))
  }

  // ---- the shipper on its own, with what it did so far ----

  datatype Verdict = Accepted | Refused | Abandoned

  datatype Closed<E> = Closed(lines: seq<E>, sizes: seq<nat>, verdict: Verdict)

  datatype Shipping<E> = Shipping(ship: Ship<E>, received: seq<E>, closed: seq<Closed<E>>, acked: seq<E>)

  datatype Step<E> = Recv(e: E, size: nat) | Timer | Post(verdict: Verdict) | Ack

  predicate Enabled<E>(s: Shipping<E>, step: Step<E>) {
    match step
    case Recv(_, _) => s.ship.phase.Collecting?
    case Timer => s.ship.phase.Collecting?
    case Post(_) => s.ship.phase.Posting?
    case Ack => s.ship.phase.Acking? && s.ship.acking != []
  }

  function Next<E>(s: Shipping<E>, lim: Limits, step: Step<E>): Shipping<E>
    requires Enabled(s, step)
  {
    match step
    case Recv(e, size) => s.(ship := Receive(s.ship, lim, e, size), received := s.received + [e])
    case Timer => s.(ship := TimerFires(s.ship))
    case Post(v) =>
      var c := Closed(s.ship.batch, s.ship.sizes, v);
      s.(closed := s.closed + [c], ship := if v.Abandoned? then Resume(s.ship, lim) else Settle(s.ship))
    case Ack => s.(acked := s.acked + [s.ship.acking[0]], ship := AckOne(s.ship, lim))
  }

  function AllLines<E>(cs: seq<Closed<E>>): seq<E> {
    if cs == [] then [] else AllLines(cs[..|cs| - 1]) + cs[|cs| - 1].lines
  }

  function SettledLines<E>(cs: seq<Closed<E>>): seq<E> {
    if cs == [] then []
    else SettledLines(cs[..|cs| - 1]) + (if cs[|cs| - 1].verdict.Abandoned? then [] else cs[|cs| - 1].lines)
  }

  /** How many lines ended with this verdict. */
  function Count<E>(cs: seq<Closed<E>>, v: Verdict): nat {
    if cs == [] then 0
    else Count(cs[..|cs| - 1], v) + (if cs[|cs| - 1].verdict == v then |cs[|cs| - 1].lines| else 0)
  }

  /**
   Batches concatenate to what was received, in order; each keeps the limits;
   the settled ones are acknowledged whole, in order and once.
   */
  ghost predicate Faithful<E>(s: Shipping<E>, lim: Limits) {
    && Valid(s.ship, lim)
    && s.received == AllLines(s.closed) + Pending(s.ship)
    && AllFit(s.closed, lim)
    && s.acked + s.ship.acking == SettledLines(s.closed)
  }

  ghost predicate AllFit<E>(cs: seq<Closed<E>>, lim: Limits) {
    forall k :: 0 <= k < |cs| ==> |cs[k].lines| == |cs[k].sizes| > 0 && FitsLimits(cs[k].sizes, lim)
  }

  lemma SumAppend(sizes: seq<nat>, n: nat)
    ensures Sum(sizes + [n]) == Sum(sizes) + n
  {
    assert (sizes + [n])[..|sizes|] == sizes;
  }

  lemma ClosedAppend<E>(cs: seq<Closed<E>>, c: Closed<E>)
    ensures AllLines(cs + [c]) == AllLines(cs) + c.lines
    ensures SettledLines(cs + [c]) == SettledLines(cs) + (if c.verdict.Abandoned? then [] else c.lines)
    ensures forall v :: Count(cs + [c], v) == Count(cs, v) + (if c.verdict == v then |c.lines| else 0)
  {
    assert (cs + [c])[..|cs|] == cs;
  }

  lemma AppendValid<E>(s: Ship<E>, lim: Limits, e: E, size: nat)
    requires lim.lines >= 1 && s.held == [] && s.acking == []
    requires |s.batch| == |s.sizes| < lim.lines && (s.batch == [] || Sum(s.sizes) + size <= lim.bytes)
    ensures Valid(Append(s, lim, e, size), lim)
    ensures Pending(Append(s, lim, e, size)) == Pending(s) + [e]
  {
    SumAppend(s.sizes, size);
  }

  lemma ReceiveValid<E>(s: Ship<E>, lim: Limits, e: E, size: nat)
    requires Valid(s, lim) && s.phase.Collecting?
    ensures Valid(Receive(s, lim, e, size), lim)
    ensures Pending(Receive(s, lim, e, size)) == Pending(s) + [e]
  {
    if !(s.batch != [] && Sum(s.sizes) + size > lim.bytes) {
      AppendValid(s, lim, e, size);
    }
  }

  /** An entry makes the batch go out at once if and only if it does not fit any more or fills it up. */
  lemma PostsIff<E>(s: Ship<E>, lim: Limits, e: E, size: nat)
    requires Valid(s, lim) && s.phase.Collecting?
    ensures var s' := Receive(s, lim, e, size);
            var tooLong := s.batch != [] && Sum(s.sizes) + size > lim.bytes;
            && (s'.phase.Posting? <==> tooLong || |s.batch| + 1 >= lim.lines)
            && s'.batch == (if tooLong then s.batch else s.batch + [e])
            && (TimerFires(s).phase.Posting? <==> s.batch != [])
  {
  }

  lemma ResumeValid<E>(s: Ship<E>, lim: Limits)
    requires lim.lines >= 1 && |s.held| <= 1
    ensures Valid(Resume(s, lim), lim)
    ensures Pending(s) == s.batch + Pending(Resume(s, lim)) && Resume(s, lim).acking == []
  {
    if s.held != [] {
      AppendValid(s.(batch := [], sizes := [], held := [], phase := Collecting, acking := []), lim, s.held[0].0,
        s.held[0].1);
    }
  }

  lemma Reassociate<E>(a: seq<E>, b: seq<E>, c: seq<E>)
    ensures a + (b + c) == a + b + c
  {
  }

  lemma AllFitAppend<E>(cs: seq<Closed<E>>, c: Closed<E>, lim: Limits)
    requires AllFit(cs, lim) && |c.lines| == |c.sizes| > 0 && FitsLimits(c.sizes, lim)
    ensures AllFit(cs + [c], lim)
  {
  }

  lemma SettlePending<E>(s: Ship<E>)
    ensures Pending(s) == s.batch + Pending(Settle(s))
  {
  }

  /** Closing a batch moves its lines from the pending ones to the closed ones. */
  lemma CloseLines<E>(cs: seq<Closed<E>>, c: Closed<E>, pending: seq<E>, rest: seq<E>, lim: Limits)
    requires AllFit(cs, lim) && |c.lines| == |c.sizes| > 0 && FitsLimits(c.sizes, lim) && pending == c.lines + rest
    ensures AllLines(cs) + pending == AllLines(cs + [c]) + rest && AllFit(cs + [c], lim)
    ensures SettledLines(cs + [c]) == SettledLines(cs) + (if c.verdict.Abandoned? then [] else c.lines)
  {
    ClosedAppend(cs, c);
    AllFitAppend(cs, c, lim);
    Reassociate(AllLines(cs), c.lines, rest);
  }

  lemma AckFaithful<E>(s: Shipping<E>, lim: Limits)
    requires Faithful(s, lim) && Enabled(s, Ack)
    ensures Faithful(Next(s, lim, Ack), lim)
  {
    var a := s.ship.acking;
    var t := Next(s, lim, Ack);
    ResumeValid(s.ship.(acking := a[1..]), lim);
    assert Pending(t.ship) == Pending(s.ship);
    assert s.acked + a == s.acked + [a[0]] + a[1..];
  }

  lemma StepFaithful<E>(s: Shipping<E>, lim: Limits, step: Step<E>)
    requires Faithful(s, lim) && Enabled(s, step)
    ensures Faithful(Next(s, lim, step), lim)
  {
    match step {
      case Recv(e, size) =>
        ReceiveValid(s.ship, lim, e, size);
        assert s.received + [e] == AllLines(s.closed) + (Pending(s.ship) + [e]);
      case Timer =>
      case Post(v) =>
        var t := Next(s, lim, step);
        ResumeValid(s.ship, lim);
        SettlePending(s.ship);
        CloseLines(s.closed, Closed(s.ship.batch, s.ship.sizes, v), Pending(s.ship), Pending(t.ship), lim);
        assert t.acked + t.ship.acking == SettledLines(t.closed);
      case Ack => AckFaithful(s, lim);
    }
  }

  ghost predicate IsRun<E>(states: seq<Shipping<E>>, steps: seq<Step<E>>, lim: Limits) {
    && |states| == |steps| + 1
    && states[0] == Shipping(NewShip(), [], [], [])
    && forall k :: 0 <= k < |steps| ==> Enabled(states[k], steps[k]) && states[k + 1] == Next(states[k], lim, steps[k])
  }

  /** At every point of every run. */
  lemma {:induction false} RunFaithful<E>(states: seq<Shipping<E>>, steps: seq<Step<E>>, lim: Limits, k: nat)
    requires IsRun(states, steps, lim) && k <= |steps| && lim.lines >= 1
    ensures Faithful(states[k], lim)
  {
    if k > 0 {
      RunFaithful(states, steps, lim, k - 1);
      StepFaithful(states[k - 1], lim, steps[k - 1]);
    }
  }

  lemma {:induction false} CountsAddUp<E>(cs: seq<Closed<E>>)
    ensures |AllLines(cs)| == Count(cs, Accepted) + Count(cs, Refused) + Count(cs, Abandoned)
  {
    if cs != [] {
      CountsAddUp(cs[..|cs| - 1]);
    }
  }

  /** received = shipped + refused + abandoned + pending, at every point of every run. */
  lemma Conservation<E>(states: seq<Shipping<E>>, steps: seq<Step<E>>, lim: Limits, k: nat)
    requires IsRun(states, steps, lim) && k <= |steps| && lim.lines >= 1
    ensures var s := states[k];
            |s.received| == Count(s.closed, Accepted) + Count(s.closed, Refused)
                            + Count(s.closed, Abandoned) + |Pending(s.ship)|
  {
    RunFaithful(states, steps, lim, k);
    CountsAddUp(states[k].closed);
  }

  // ---- the retry loop ----

  /** How one post ends: delivered, refused (4xx), rejected (401/403, paused), busy (429/5xx), or a network error. */
  datatype Reply = Took | RefusedForGood | Rejected | Busy(retryAfter: nat) | NetError

  predicate Ends(r: Reply) {
    r.Took? || r.RefusedForGood?
  }

  /** The number of replies before the first one that ends the batch. */
  function Tries(replies: seq<Reply>): (n: nat)
    ensures n <= |replies|
    ensures n < |replies| ==> Ends(replies[n])
    ensures forall k :: 0 <= k < n ==> !Ends(replies[k])
  {
    if replies == [] || Ends(replies[0]) then 0 else 1 + Tries(replies[1..])
  }

  /** The n-th reply is the first that ends the batch. */
  ghost predicate EndsAt(replies: seq<Reply>, n: nat) {
    n < |replies| && Ends(replies[n]) && forall k :: 0 <= k < n ==> !Ends(replies[k])
  }

  /** The batch's fate when the context is done after the last reply. */
  function VerdictOf(replies: seq<Reply>): Verdict {
    var n := Tries(replies);
    if n == |replies| then Abandoned else if replies[n].Took? then Accepted else Refused
  }

  /** The pause, in seconds, after the k-th reply. */
  function WaitAfter(replies: seq<Reply>, k: nat): nat
    requires k < |replies|
    decreases k, 1
  {
    match replies[k]
    case Rejected => 10
    case Busy(n) => if n > 0 then n else Doubled(replies, k)
    case _ => Doubled(replies, k)
  }

  function Doubled(replies: seq<Reply>, k: nat): nat
    requires k < |replies|
    decreases k, 0
  {
    if k == 0 then 1 else Min(WaitAfter(replies, k - 1) * 2, 60)
  }

  /** Taken if the reply that ends the batch took it, refused if it refused it, given up if none ends it. */
  lemma VerdictIs(replies: seq<Reply>)
    ensures VerdictOf(replies) == Accepted <==> exists n: nat :: EndsAt(replies, n) && replies[n] == Took
    ensures VerdictOf(replies) == Refused <==> exists n: nat :: EndsAt(replies, n) && replies[n] == RefusedForGood
    ensures VerdictOf(replies) == Abandoned <==> forall k :: 0 <= k < |replies| ==> !Ends(replies[k])
  {
    var n := Tries(replies);
    if n < |replies| {
      assert EndsAt(replies, n);
      forall m: nat | EndsAt(replies, m) ensures m == n {
        assert Ends(replies[m]) && Ends(replies[n]);
      }
    }
  }

  /** What the server asked for, ten seconds after a rejection, otherwise twice the last pause up to a minute. */
  predicate WaitsAsAsked(replies: seq<Reply>, waits: seq<nat>)
    requires |waits| <= |replies|
  {
    forall k :: 0 <= k < |waits| ==>
      waits[k] == match replies[k]
                  case Rejected => 10
                  case Busy(n) => if n > 0 then n else NextWait(waits, k)
                  case _ => NextWait(waits, k)
  }

  function NextWait(waits: seq<nat>, k: nat): nat
    requires k < |waits|
  {
    if k == 0 then 1 else if waits[k - 1] > 30 then 60 else 2 * waits[k - 1]
  }

  method Deliver(replies: seq<Reply>) returns (verdict: Verdict, waits: seq<nat>)
    ensures verdict == VerdictOf(replies)
    ensures verdict == Accepted <==> exists n: nat :: EndsAt(replies, n) && replies[n] == Took
    ensures verdict == Refused <==> exists n: nat :: EndsAt(replies, n) && replies[n] == RefusedForGood
    ensures verdict == Abandoned <==> forall k :: 0 <= k < |replies| ==> !Ends(replies[k])
    ensures |waits| == Tries(replies)
    ensures forall k :: 0 <= k < |waits| ==> waits[k] == WaitAfter(replies, k)
    ensures WaitsAsAsked(replies, waits)
  {
    VerdictIs(replies);
    var wait := 1;
    waits := [];
    var i := 0;
    while i < |replies|
      invariant 0 <= i <= |replies| && |waits| == i
      invariant forall k :: 0 <= k < i ==> !Ends(replies[k]) && waits[k] == WaitAfter(replies, k)
      invariant i < |replies| ==> wait == Doubled(replies, i)
      invariant WaitsAsAsked(replies, waits)
      invariant wait == if i == 0 then 1 else if waits[i - 1] > 30 then 60 else 2 * waits[i - 1]
    {
      match replies[i] {
        case Took => verdict := Accepted; return;
        case RefusedForGood => verdict := Refused; return;
        case Rejected => wait := 10;
        case Busy(n) => if n > 0 { wait := n; }
        case NetError =>
      }
      waits := waits + [wait];
      wait := Min(wait * 2, 60);
      i := i + 1;
    }
    verdict := Abandoned;
  }

  function Pow2(k: nat): nat {
    if k == 0 then 1 else 2 * Pow2(k - 1)
  }

  /** Plain failures back off 1, 2, 4, ... seconds up to a minute. */
  lemma {:induction false} BackoffDoubles(replies: seq<Reply>, k: nat)
    requires k < |replies| && forall j :: 0 <= j <= k ==> replies[j].NetError?
    ensures WaitAfter(replies, k) == Min(Pow2(k), 60)
  {
    if k > 0 {
      BackoffDoubles(replies, k - 1);
    }
  }

  /** No pause is longer than a minute unless the server asked for it. */
  lemma {:induction false} WaitBounded(replies: seq<Reply>, k: nat)
    requires k < |replies|
    ensures 1 <= WaitAfter(replies, k)
    ensures WaitAfter(replies, k) <= 60 || replies[k] == Busy(WaitAfter(replies, k))
  {
    if k > 0 {
      WaitBounded(replies, k - 1);
    }
  }

  class Shipper<E> {
    const lim: Limits
    var batch: seq<E>
    var buf: nat
    /** The entries whose ack was called, in order. */
    var acked: seq<E>
    ghost var sizes: seq<nat>
    ghost var received: seq<E>
    ghost var closed: seq<Closed<E>>

    ghost function View(): Shipping<E>
      reads this
    {
      Shipping(Ship(batch, sizes, [], Collecting, []), received, closed, acked)
    }

    ghost predicate Valid()
      reads this
    {
      Faithful(View(), lim) && buf == Sum(sizes)
    }

    /** The same while a batch of any size is about to be flushed. */
    ghost predicate Sound()
      reads this
    {
      && lim.lines >= 1 && |batch| == |sizes| && (batch != [] ==> FitsLimits(sizes, lim)) && buf == Sum(sizes)
      && received == AllLines(closed) + batch && AllFit(closed, lim) && acked == SettledLines(closed)
    }

    lemma SoundIsValid()
      ensures Sound() && |batch| < lim.lines <==> Valid()
    {
      assert acked + [] == acked && batch + [] == batch;
      assert Pending(View().ship) == batch;
    }

    constructor (lines: int, bytes: int)
      ensures Valid() && lim == NewLimits(lines, bytes)
      ensures received == [] && closed == [] && acked == []
    {
      lim := NewLimits(lines, bytes);
      batch, buf, acked := [], 0, [];
      sizes, received, closed := [], [], [];
    }

    /** flush: deliver the batch, acknowledge it when it was settled, start over. */
    method Flush(replies: seq<Reply>)
      requires Sound()
      modifies this
      ensures Sound() && batch == [] && received == old(received)
      ensures old(batch) == [] ==> closed == old(closed)
      ensures old(batch) != [] ==> closed == old(closed) + [Closed(old(batch), old(sizes), VerdictOf(replies))]
    {
      if |batch| > 0 {
        var verdict, _ := Deliver(replies);
        ClosedAppend(closed, Closed(batch, sizes, verdict));
        closed := closed + [Closed(batch, sizes, verdict)];
        if !verdict.Abandoned? {
          acked := acked + batch;
        }
      }
      batch, sizes := [], [];
      buf := 0;
    }

    /** An entry arrives; `size` is the length of its encoded line. */
    method Receive(e: E, size: nat, replies1: seq<Reply>, replies2: seq<Reply>)
      requires Valid()
      modifies this
      ensures Valid() && received == old(received) + [e]
      ensures var full := old(batch) != [] && old(buf) + size > lim.bytes;
              var lines := (if full then [] else old(batch)) + [e];
              && batch == (if |lines| >= lim.lines then [] else lines)
              && |closed| == |old(closed)| + (if full then 1 else 0) + (if |lines| >= lim.lines then 1 else 0)
    {
      SoundIsValid();
      if |batch| > 0 && buf + size > lim.bytes {
        Flush(replies1);
      }
      Add(e, size);
      if |batch| >= lim.lines {
        Flush(replies2);
      }
      SoundIsValid();
    }

    /** The line joins the batch, for which it is not too long. */
    method Add(e: E, size: nat)
      requires Sound() && |batch| < lim.lines && (batch == [] || buf + size <= lim.bytes)
      modifies this
      ensures Sound() && batch == old(batch) + [e] && received == old(received) + [e] && closed == old(closed)
    {
      SumAppend(sizes, size);
      assert received + [e] == AllLines(closed) + (batch + [e]);
      buf := buf + size;
      batch, sizes, received := batch + [e], sizes + [size], received + [e];
    }

    method TimerFired(replies: seq<Reply>)
      requires Valid()
      modifies this
      ensures Valid() && batch == [] && received == old(received)
      ensures |closed| == |old(closed)| + (if old(batch) == [] then 0 else 1)
    {
      SoundIsValid();
      Flush(replies);
      SoundIsValid();
    }
  }
}
