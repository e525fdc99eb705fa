/**
 Runs of the log delivery protocol that show where its promises end: two in
 which a line still on disk is lost by a crash, and one in which a line is sent
 twice without any.
 */
module LogRuns {
  import opened Prelude
  import opened LogLines
  import opened LogTail
  import opened LogPositions
  import opened LogDelivery
  import opened LogSafety
  import Ship = LogShip

  const WATCH_ONE := Config(Ship.Limits(1000, 1048576), {"app.log"})

  /** The line "A". */
  const LINE: seq<Byte> := [65, NEWLINE]
  const ENTRY := Entry("app.log", 1, 0, 2, [65])

  const NOTHING := History([], [], [], [], [])
  const FRESH := Tailed(1, 0, 0, [], None, false)
  const IDLE := Agent(0, false, map[], None, map[], None, [], Ship.NewShip())
  const FOLLOWING := IDLE.(positions := map["app.log" := Position(1, 0)], files := map["app.log" := FRESH])

  const EMPTY := Sys(map[], map[], 0, map[], None, NOTHING, map[])
  const CREATED := EMPTY.(dir := map["app.log" := 1], data := map[1 := []])
  const STARTED := CREATED.(agent := Some(IDLE))
  const OPENED := CREATED.(agent := Some(FOLLOWING), past := NOTHING.(skipped := [Span(1, 0, 0)]), seen := map[1 := 0])

  ghost predicate Goes(s: Sys, step: Step, s': Sys) {
    Enabled(WATCH_ONE, s, step) && Next(WATCH_ONE, s, step) == s'
  }

  // ---- steps the runs have in common ----

  lemma FirstGoes()
    ensures Init(EMPTY)
    ensures Goes(EMPTY, Create("app.log", 1), CREATED) && Goes(CREATED, Start, STARTED)
  {
  }

  lemma OpenGoes()
    ensures Goes(STARTED, Open("app.log"), OPENED)
  {
  }

  lemma AppendGoes(s: Sys)
    requires s.data == map[1 := []]
    ensures Goes(s, Append(1, LINE), s.(data := map[1 := LINE]))
  {
    assert [] + LINE == LINE;
  }

  lemma CrashGoes(s: Sys)
    requires s.agent.Some?
    ensures Goes(s, Crash, s.(agent := None))
  {
  }

  lemma RenameGoes(s: Sys, p: string, q: string)
    requires s.dir == map[p := 1] && p != q
    ensures Goes(s, Rename(p, q), s.(dir := map[q := 1]))
  {
  }

  /** The file with the line is read from its start. */
  function InHand(gone: bool): Reading {
    Reading("app.log", FRESH.(pos := 2, gone := gone), LINE, 2)
  }

  /** The line was cut off. */
  function Emptied(gone: bool): Reading {
    Reading("app.log", FRESH.(offset := 2, pos := 2, gone := gone), [], 2)
  }

  lemma BeginLine(gone: bool)
    ensures BeginRead("app.log", FRESH.(gone := gone), LINE) == InHand(gone)
  {
    assert LINE[0..2] == LINE;
    assert [] + LINE == LINE;
  }

  lemma BeginGoes(s: Sys, a: Agent, gone: bool)
    requires s.agent == Some(a) && s.data == map[1 := LINE]
    requires a.reading.None? && a.files == map["app.log" := FRESH.(gone := gone)]
    ensures Goes(s, Begin("app.log"), s.(agent := Some(a.(reading := Some(InHand(gone))))))
  {
    BeginLine(gone);
  }

  lemma CutOneLine(gone: bool)
    ensures HasLine(InHand(gone)) && CutLine(InHand(gone)) == (Emptied(gone), [ENTRY])
  {
    assert LINE[1..] == [NEWLINE] && IndexNewline(LINE[1..]) == 0 && IndexNewline(LINE) == 1;
    assert LINE[..1] == [65] && LINE[2..] == [];
    assert TrimCR([65]) == [65] && SpaceAt([65]) == 0;
  }

  lemma CutGoes(s: Sys, a: Agent, gone: bool)
    requires s.agent == Some(a) && a.reading == Some(InHand(gone)) && |a.channel| < CHANNEL_CAPACITY
    ensures Goes(s, Cut, s.(agent := Some(a.(reading := Some(Emptied(gone)), channel := a.channel + [ENTRY]))))
  {
    CutOneLine(gone);
    assert CutStep(s, a) == Sent(s, a.(reading := Some(Emptied(gone))), [ENTRY], 1, 0, 2);
  }

  lemma CutGoesTo(s: Sys, a: Agent, gone: bool, channel: seq<Entry>, b: Agent)
    requires s.agent == Some(a) && a.reading == Some(InHand(gone)) && |a.channel| < CHANNEL_CAPACITY
    requires channel == a.channel + [ENTRY] && b == a.(reading := Some(Emptied(gone)), channel := channel)
    ensures Goes(s, Cut, s.(agent := Some(b)))
  {
    CutGoes(s, a, gone);
  }

  // ---- a file rotated away before a crash ----

  const SAVED := OPENED.(saved := map["app.log" := Position(1, 0)])
  const ROTATED_CUT := SAVED.(
    data := map[1 := LINE], agent := Some(FOLLOWING.(reading := Some(Emptied(false)), channel := [ENTRY])))

  function RotationState(k: nat): Sys
    requires k <= 10
  {
    match k
    case 0 => EMPTY
    case 1 => CREATED
    case 2 => STARTED
    case 3 => OPENED
    case 4 => OPENED.(agent := Some(FOLLOWING.(snapshot := Some(FOLLOWING.positions))))
    case 5 => SAVED
    case 6 => SAVED.(data := map[1 := LINE])
    case 7 => SAVED.(data := map[1 := LINE], agent := Some(FOLLOWING.(reading := Some(InHand(false)))))
    case 8 => ROTATED_CUT
    case 9 => ROTATED_CUT.(dir := map["app.log.1" := 1])
    case _ => ROTATED_CUT.(dir := map["app.log.1" := 1], agent := None)
  }

  function RotationStep(k: nat): Step
    requires k < 10
  {
    match k
    case 0 => Create("app.log", 1)
    case 1 => Start
    case 2 => Open("app.log")
    case 3 => Marshal
    case 4 => Write(true)
    case 5 => Append(1, LINE)
    case 6 => Begin("app.log")
    case 7 => Cut
    case 8 => Rename("app.log", "app.log.1")
    case _ => Crash
  }

  /** The k-th step is enabled and leads to the next state. */
  ghost predicate RotationGoes(k: nat)
    requires k < 10
  {
    Goes(RotationState(k), RotationStep(k), RotationState(k + 1))
  }

  lemma MarshalGoes(s: Sys, a: Agent)
    requires s.agent == Some(a) && a.snapshot.None?
    ensures Goes(s, Marshal, s.(agent := Some(a.(snapshot := Some(a.positions)))))
  {
  }

  lemma WriteGoes(s: Sys, a: Agent)
    requires s.agent == Some(a) && a.snapshot.Some?
    ensures Goes(s, Write(true), s.(saved := a.snapshot.value, agent := Some(a.(snapshot := None))))
  {
  }

  lemma RotationMarshals()
    ensures RotationGoes(3)
  {
    MarshalGoes(OPENED, FOLLOWING);
  }

  lemma RotationWrites()
    ensures RotationGoes(4)
  {
    WriteGoes(RotationState(4), FOLLOWING.(snapshot := Some(FOLLOWING.positions)));
  }

  lemma RotationReads()
    ensures RotationGoes(6)
  {
    BeginGoes(RotationState(6), FOLLOWING, false);
  }

  lemma RotationCuts()
    ensures RotationGoes(7)
  {
    CutGoes(RotationState(7), FOLLOWING.(reading := Some(InHand(false))), false);
    assert [] + [ENTRY] == [ENTRY];
  }

  /**
   "A restart loses nothing that is still on disk" does not hold for a file
   that was rotated away: here its line was read after its position was saved,
   it is on disk under the rotated name, and after the crash it is an orphan.
   */
  lemma RotatedFileIsLost()
    ensures Init(RotationState(0)) && forall k :: 0 <= k < 10 ==> RotationGoes(k)
    ensures var s := RotationState(10);
            && s.saved == map["app.log" := Position(1, 0)]
            && s.dir == map["app.log.1" := 1] && s.data == map[1 := LINE]
            && !Done(s.past, 1, 0) && Orphaned(WATCH_ONE, s, 1)
  {
    forall k | 0 <= k < 10 ensures RotationGoes(k) {
      if k < 2 { FirstGoes(); }
      else if k == 2 { OpenGoes(); }
      else if k == 3 { RotationMarshals(); }
      else if k == 4 { RotationWrites(); }
      else if k == 5 { AppendGoes(SAVED); }
      else if k == 6 { RotationReads(); }
      else if k == 7 { RotationCuts(); }
      else if k == 8 { RenameGoes(ROTATED_CUT, "app.log", "app.log.1"); }
      else { CrashGoes(RotationState(9)); }
    }
  }

  // ---- a crash before the first save ----

  const GROWN := OPENED.(data := map[1 := LINE])
  const AT_END := IDLE.(
    positions := map["app.log" := Position(1, 2)], files := map["app.log" := FRESH.(offset := 2, pos := 2)])

  function UnsavedState(k: nat): Sys
    requires k <= 7
  {
    match k
    case 0 => EMPTY
    case 1 => CREATED
    case 2 => STARTED
    case 3 => OPENED
    case 4 => GROWN
    case 5 => GROWN.(agent := None)
    case 6 => GROWN.(agent := Some(IDLE))
    case _ => GROWN.(agent := Some(AT_END), past := GROWN.past.(passed := [Span(1, 0, 2)]))
  }

  function UnsavedStep(k: nat): Step
    requires k < 7
  {
    match k
    case 0 => Create("app.log", 1)
    case 1 => Start
    case 2 => Open("app.log")
    case 3 => Append(1, LINE)
    case 4 => Crash
    case 5 => Start
    case _ => Open("app.log")
  }

  ghost predicate UnsavedGoes(k: nat)
    requires k < 7
  {
    Goes(UnsavedState(k), UnsavedStep(k), UnsavedState(k + 1))
  }

  lemma UnsavedStarts()
    ensures UnsavedGoes(5)
  {
  }

  lemma UnsavedReopens()
    ensures UnsavedGoes(6)
  {
  }

  /**
   Nor does it hold for a file that never left its path, while no position of
   it is saved: here the line was written after the file was opened, and after
   a crash the file is taken for a new one and followed from its end.
   */
  lemma UnsavedFileIsLost()
    ensures Init(UnsavedState(0)) && forall k :: 0 <= k < 7 ==> UnsavedGoes(k)
    ensures var s := UnsavedState(7);
            && s.dir == map["app.log" := 1] && s.data == map[1 := LINE] && s.seen == map[1 := 0]
            && Queue(s.agent.value) == [] && s.agent.value.files == map["app.log" := FRESH.(offset := 2, pos := 2)]
            && !Done(s.past, 1, 0) && Within(s.past.passed, 1, 0)
  {
    forall k | 0 <= k < 7 ensures UnsavedGoes(k) {
      if k < 2 { FirstGoes(); }
      else if k == 2 { OpenGoes(); }
      else if k == 3 { AppendGoes(OPENED); }
      else if k == 4 { CrashGoes(GROWN); }
      else if k == 5 { UnsavedStarts(); }
      else { UnsavedReopens(); }
    }
    assert UnsavedState(7).past.passed[0] == Span(1, 0, 2);
  }

  // ---- a file renamed away and back ----

  const GONE := FOLLOWING.(files := map["app.log" := FRESH.(gone := true)])
  const DROPPED := FOLLOWING.(files := map[], channel := [ENTRY])

  function RenamedState(k: nat): Sys
    requires k <= 13
  {
    match k
    case 0 => EMPTY
    case 1 => CREATED
    case 2 => STARTED
    case 3 => OPENED
    case 4 => GROWN
    case 5 => GROWN.(dir := map["app.log.1" := 1])
    case 6 => GROWN.(dir := map["app.log.1" := 1], agent := Some(GONE))
    case 7 => GROWN.(agent := Some(GONE))
    case 8 => GROWN.(agent := Some(GONE.(reading := Some(InHand(true)))))
    case 9 => GROWN.(agent := Some(GONE.(reading := Some(Emptied(true)), channel := [ENTRY])))
    case 10 => GROWN.(agent := Some(DROPPED))
    case 11 => GROWN.(agent := Some(FOLLOWING.(channel := [ENTRY])))
    case 12 => GROWN.(agent := Some(FOLLOWING.(channel := [ENTRY], reading := Some(InHand(false)))))
    case _ => GROWN.(agent := Some(FOLLOWING.(channel := [ENTRY, ENTRY], reading := Some(Emptied(false)))))
  }

  function RenamedStep(k: nat): Step
    requires k < 13
  {
    match k
    case 0 => Create("app.log", 1)
    case 1 => Start
    case 2 => Open("app.log")
    case 3 => Append(1, LINE)
    case 4 => Rename("app.log", "app.log.1")
    case 5 => Scan("app.log")
    case 6 => Rename("app.log.1", "app.log")
    case 7 => Begin("app.log")
    case 8 => Cut
    case 9 => End
    case 10 => Open("app.log")
    case 11 => Begin("app.log")
    case _ => Cut
  }

  ghost predicate RenamedGoes(k: nat)
    requires k < 13
  {
    Goes(RenamedState(k), RenamedStep(k), RenamedState(k + 1))
  }

  lemma RenamedScans()
    ensures RenamedGoes(5)
  {
    assert FOLLOWING.files["app.log" := FRESH.(gone := true)] == GONE.files;
  }

  lemma RenamedBegins()
    ensures RenamedGoes(7)
  {
    BeginGoes(RenamedState(7), GONE, true);
  }

  lemma RenamedCuts()
    ensures RenamedGoes(8)
  {
    var a := GONE.(reading := Some(InHand(true)));
    CutGoesTo(RenamedState(8), a, true, [ENTRY], GONE.(reading := Some(Emptied(true)), channel := [ENTRY]));
  }

  lemma RenamedDrops()
    ensures RenamedGoes(9)
  {
    var r := Emptied(true);
    var f := EndRead(r, 0);
    var a := GONE.(reading := Some(r), channel := [ENTRY]);
    assert f.sent == [] && f.closed && f.file.offset == 2;
    assert Finish(a, "app.log", f, true) == DROPPED;
    assert [ENTRY] + [] == [ENTRY];
  }

  lemma RenamedReopens()
    ensures RenamedGoes(10)
  {
  }

  lemma RenamedBeginsAgain()
    ensures RenamedGoes(11)
  {
    BeginGoes(RenamedState(11), FOLLOWING.(channel := [ENTRY]), false);
  }

  lemma RenamedCutsAgain()
    ensures RenamedGoes(12)
  {
    var a := FOLLOWING.(channel := [ENTRY], reading := Some(InHand(false)));
    var b := FOLLOWING.(channel := [ENTRY, ENTRY], reading := Some(Emptied(false)));
    CutGoesTo(RenamedState(12), a, false, [ENTRY, ENTRY], b);
  }

  lemma RenamedAway(k: nat)
    requires k < 7
    ensures RenamedGoes(k)
  {
    if k < 2 { FirstGoes(); }
    else if k == 2 { OpenGoes(); }
    else if k == 3 { AppendGoes(OPENED); }
    else if k == 4 { RenameGoes(GROWN, "app.log", "app.log.1"); }
    else if k == 5 { RenamedScans(); }
    else { RenameGoes(RenamedState(6), "app.log.1", "app.log"); }
  }

  lemma RenamedAndRead(k: nat)
    requires 7 <= k < 13
    ensures RenamedGoes(k)
  {
    if k == 7 { RenamedBegins(); }
    else if k == 8 { RenamedCuts(); }
    else if k == 9 { RenamedDrops(); }
    else if k == 10 { RenamedReopens(); }
    else if k == 11 { RenamedBeginsAgain(); }
    else { RenamedCutsAgain(); }
  }

  /**
   A line can be sent twice without any crash: a file renamed away and back
   between two passes is drained, dropped and opened again where it was
   acknowledged to, while its line is still on its way.
   */
  lemma RenamedFileIsSentTwice()
    ensures Init(RenamedState(0)) && forall k :: 0 <= k < 13 ==> RenamedGoes(k) && RenamedStep(k) != Crash
    ensures Queue(RenamedState(13).agent.value) == [ENTRY, ENTRY]
  {
    forall k | 0 <= k < 13 ensures RenamedGoes(k) && RenamedStep(k) != Crash {
      if k < 7 { RenamedAway(k); } else { RenamedAndRead(k); }
    }
  }
}
