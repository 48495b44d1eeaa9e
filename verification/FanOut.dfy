/** The concurrent dashboard fan-out (usecases/console_reports.go: runSections, runSection). Each panel's
    goroutine is a sequence of steps; main's spawning and all goroutines interleave in any order, and the
    wait group counts the goroutines that are not done. */
module FanOut {
  import opened Common
  import opened Series

  /** A panel's recipe, with what its two upstream calls would answer. */
  datatype Spec = Spec(
    id: string, title: string, sourceContext: string, chartKind: string, wired: bool,
    fetch: Option<Result<seq<SeriesPoint>, string>>,
    freshness: Option<Result<real, string>>)

  datatype Reason = NotConfigured(sourceContext: string) | NotAvailable(sourceContext: string)

  datatype Section = Section(
    id: string, title: string, sourceContext: string, chartKind: string,
    available: bool, error: Option<Reason>, lag: Option<real>, series: seq<SeriesPoint>)

  function Blank(s: Spec): Section {
    Section(s.id, s.title, s.sourceContext, s.chartKind, false, None, None, [])
  }

  /** The degrade rule: unavailable exactly when the client is unwired or its report failed, and then
      with a reason and nothing to plot; freshness annotates and never degrades. */
  function SectionOf(s: Spec): (r: Section)
    ensures r.available <==> s.wired && s.fetch.Some? && s.fetch.value.Ok?
    ensures r.error == if r.available then None
                       else if s.wired && s.fetch.Some? then Some(NotAvailable(s.sourceContext))
                       else Some(NotConfigured(s.sourceContext))
    ensures !r.available ==> r.series == [] && r.lag == None
    ensures r.available ==> r.series == s.fetch.value.value
    ensures r.available ==> (r.lag.Some? <==> s.freshness.Some? && s.freshness.value.Ok?)
    ensures r.available && r.lag.Some? ==> r.lag.value == s.freshness.value.value
    ensures r.id == s.id && r.title == s.title && r.sourceContext == s.sourceContext && r.chartKind == s.chartKind
  {
    if !s.wired || s.fetch.None? then Blank(s).(error := Some(NotConfigured(s.sourceContext)))
    else
      match s.fetch.value
      case Err(_) => Blank(s).(error := Some(NotAvailable(s.sourceContext)))
      case Ok(series) =>
        Blank(s).(available := true, series := series,
                  lag := match s.freshness case Some(Ok(lag)) => Some(lag) case _ => None)
  }

  // ----- one goroutine -----

  /** Where a goroutine stands; `Ready` has its record complete but not yet stored. */
  datatype Stage = Unborn | Spawned | Asking | Annotating | Ready | Stored | Finished

  function Left(st: Stage): nat {
    match st
    case Unborn => 6 case Spawned => 5 case Asking => 4 case Annotating => 3 case Ready => 2 case Stored => 1 case Finished => 0
  }

  predicate Live(st: Stage) { !st.Unborn? && !st.Finished? }

  /** One step on the goroutine's own record. */
  function Advance(s: Spec, st: Stage, draft: Section): (Stage, Section) {
    match st
    case Spawned =>
      if !s.wired || s.fetch.None? then (Ready, Blank(s).(error := Some(NotConfigured(s.sourceContext)))) else (Asking, Blank(s))
    case Asking =>
      if s.fetch == None then (Ready, draft)
      else (match s.fetch.value
            case Err(_) => (Ready, draft.(error := Some(NotAvailable(s.sourceContext))))
            case Ok(series) => (Annotating, draft.(available := true, series := series)))
    case Annotating =>
      (Ready, if s.freshness.Some? && s.freshness.value.Ok? then draft.(lag := Some(s.freshness.value.value)) else draft)
    case _ => (st, draft)
  }

  /** What a goroutine's record holds at each stage. */
  predicate Drafted(s: Spec, st: Stage, draft: Section) {
    match st
    case Asking => draft == Blank(s) && s.wired && s.fetch.Some?
    case Annotating => draft == SectionOf(s).(lag := None) && SectionOf(s).available
    case Ready => draft == SectionOf(s)
    case _ => true
  }

  lemma AdvanceKeepsDraft(s: Spec, st: Stage, draft: Section)
    requires Drafted(s, st, draft) && st in {Spawned, Asking, Annotating}
    ensures var (st', draft') := Advance(s, st, draft);
            Drafted(s, st', draft') && Left(st') < Left(st) && st' in {Asking, Annotating, Ready}
  {
  }

  // ----- all of them -----

  function Running(stages: seq<Stage>): nat {
    if stages == [] then 0 else Running(stages[..|stages| - 1]) + if Live(stages[|stages| - 1]) then 1 else 0
  }

  function Remaining(stages: seq<Stage>): nat {
    if stages == [] then 0 else Remaining(stages[..|stages| - 1]) + Left(stages[|stages| - 1])
  }

  lemma {:induction false} OneMoves(stages: seq<Stage>, i: nat, st: Stage)
    requires i < |stages|
    ensures Running(stages[i := st]) == Running(stages) - (if Live(stages[i]) then 1 else 0) + (if Live(st) then 1 else 0)
    ensures Remaining(stages[i := st]) == Remaining(stages) - Left(stages[i]) + Left(st)
  {
    var n := |stages| - 1;
    if i == n {
      assert stages[i := st][..n] == stages[..n];
    } else {
      assert stages[i := st][..n] == stages[..n][i := st];
      OneMoves(stages[..n], i, st);
    }
  }

  lemma {:induction false} SomeoneIsLive(stages: seq<Stage>)
    ensures Running(stages) > 0 <==> exists i :: 0 <= i < |stages| && Live(stages[i])
  {
    if stages != [] {
      var front := stages[..|stages| - 1];
      SomeoneIsLive(front);
      if Running(front) > 0 {
        var i :| 0 <= i < |front| && Live(front[i]);
        assert Live(stages[i]);
      }
      if i :| 0 <= i < |stages| && Live(stages[i]) {
        if i < |front| { assert Live(front[i]); }
      }
    }
  }

  lemma {:induction false} NobodyStarted(n: nat)
    ensures Running(seq(n, _ => Stage.Unborn)) == 0
  {
    if n > 0 {
      assert seq(n, _ => Unborn)[..n - 1] == seq(n - 1, _ => Unborn);
      NobodyStarted(n - 1);
    }
  }

  /** Main may spawn the next goroutine (as number |stages|), and any live goroutine may take a step. */
  predicate Enabled(stages: seq<Stage>, spawned: nat, who: nat) {
    if who == |stages| then spawned < |stages| else who < |stages| && Live(stages[who])
  }

  /** Until the wait ends, somebody can move. */
  lemma NoDeadlock(stages: seq<Stage>, spawned: nat)
    requires spawned < |stages| || Running(stages) > 0
    ensures exists who: nat :: Enabled(stages, spawned, who)
  {
    if spawned < |stages| {
      assert Enabled(stages, spawned, |stages|);
    } else {
      SomeoneIsLive(stages);
      var i :| 0 <= i < |stages| && Live(stages[i]);
      assert Enabled(stages, spawned, i);
    }
  }

  ghost predicate SlotsAgree(specs: seq<Spec>, stages: seq<Stage>, drafts: seq<Section>, slots: seq<Section>) {
    && |stages| == |drafts| == |slots| == |specs|
    && (forall i :: 0 <= i < |specs| ==> Drafted(specs[i], stages[i], drafts[i]))
    && (forall i :: 0 <= i < |specs| && stages[i] in {Stored, Finished} ==> slots[i] == SectionOf(specs[i]))
  }

  /** A step of one goroutine touches its own record and its own slot only. */
  lemma MoveKeepsAgreement(specs: seq<Spec>, stages: seq<Stage>, drafts: seq<Section>, slots: seq<Section>,
                           i: nat, st: Stage, draft: Section, slot: Section)
    requires SlotsAgree(specs, stages, drafts, slots) && i < |specs|
    requires Drafted(specs[i], st, draft)
    requires st in {Stored, Finished} ==> slot == SectionOf(specs[i])
    ensures SlotsAgree(specs, stages[i := st], drafts[i := draft], slots[i := slot])
  {
  }

  /** Main has spawned the first `spawned` goroutines; the wait group counts the live ones. */
  ghost predicate Consistent(specs: seq<Spec>, stages: seq<Stage>, drafts: seq<Section>, slots: seq<Section>,
                             spawned: nat, waiting: nat) {
    && SlotsAgree(specs, stages, drafts, slots)
    && spawned <= |specs|
    && (forall i :: 0 <= i < |specs| ==> (stages[i].Unborn? <==> spawned <= i))
    && waiting == Running(stages)
  }

  /** One step of the goroutine `who`: work on its record, store it in its slot, or be done. */
  method StepGoroutine(specs: seq<Spec>, slots: array<Section>, stages: seq<Stage>, drafts: seq<Section>,
                       spawned: nat, waiting: nat, who: nat)
    returns (stages': seq<Stage>, drafts': seq<Section>, waiting': nat)
    requires Consistent(specs, stages, drafts, slots[..], spawned, waiting)
    requires who < |specs| && Live(stages[who])
    modifies slots
    ensures Consistent(specs, stages', drafts', slots[..], spawned, waiting')
    ensures Remaining(stages') < Remaining(stages)
    ensures forall i :: 0 <= i < slots.Length && i != who ==> slots[i] == old(slots[i])
  {
    var before := slots[..];
    var (st, draft) := (stages[who], drafts[who]);
    var slot := before[who];
    waiting' := waiting;
    SomeoneIsLive(stages);
    if st == Ready {
      st, slot := Stored, draft;
    } else if st == Stored {
      st, waiting' := Finished, waiting - 1;
    } else {
      AdvanceKeepsDraft(specs[who], st, draft);
      st, draft := Advance(specs[who], st, draft).0, Advance(specs[who], st, draft).1;
    }
    OneMoves(stages, who, st);
    MoveKeepsAgreement(specs, stages, drafts, before, who, st, draft, slot);
    slots[who] := slot;
    assert slots[..] == before[who := slot];
    stages', drafts' := stages[who := st], drafts[who := draft];
  }

  method SpawnNext(specs: seq<Spec>, ghost slots: seq<Section>, stages: seq<Stage>, ghost drafts: seq<Section>,
                   spawned: nat, waiting: nat)
    returns (stages': seq<Stage>, waiting': nat)
    requires Consistent(specs, stages, drafts, slots, spawned, waiting) && spawned < |specs|
    ensures Consistent(specs, stages', drafts, slots, spawned + 1, waiting')
    ensures Remaining(stages') < Remaining(stages)
  {
    OneMoves(stages, spawned, Spawned);
    MoveKeepsAgreement(specs, stages, drafts, slots, spawned, Spawned, drafts[spawned], slots[spawned]);
    assert drafts[spawned := drafts[spawned]] == drafts && slots[spawned := slots[spawned]] == slots;
    stages', waiting' := stages[spawned := Spawned], waiting + 1;
  }

  lemma StartsConsistent(specs: seq<Spec>, stages: seq<Stage>, drafts: seq<Section>, slots: seq<Section>)
    requires |drafts| == |slots| == |specs| && stages == seq(|specs|, _ => Stage.Unborn)
    ensures Consistent(specs, stages, drafts, slots, 0, 0)
  {
    NobodyStarted(|specs|);
  }

  lemma EndsComplete(specs: seq<Spec>, stages: seq<Stage>, drafts: seq<Section>, slots: seq<Section>)
    requires Consistent(specs, stages, drafts, slots, |specs|, 0)
    ensures forall i :: 0 <= i < |specs| ==> slots[i] == SectionOf(specs[i])
  {
    SomeoneIsLive(stages);
  }

  /** The sequential computation: one section per spec, in order. */
  function SectionsOf(specs: seq<Spec>): seq<Section> {
    seq(|specs|, i requires 0 <= i < |specs| => SectionOf(specs[i]))
  }

  /** Whatever the schedule, the wait ends, and then every slot holds its own panel's section, in
      declaration order: the concurrent run computes the sequential one. */
  method RunSections(specs: seq<Spec>) returns (sections: seq<Section>)
    ensures sections == SectionsOf(specs)
    ensures |sections| == |specs| && forall i :: 0 <= i < |specs| ==> sections[i] == SectionOf(specs[i])
  {
    var n := |specs|;
    var slots := new Section[n](_ => Section("", "", "", "", false, None, None, []));
    var stages := seq(n, _ => Stage.Unborn);
    var drafts := seq(n, i requires 0 <= i < n => Blank(specs[i]));
    var spawned: nat, waiting: nat := 0, 0;
    StartsConsistent(specs, stages, drafts, slots[..]);
    while spawned < n || waiting > 0
      invariant Consistent(specs, stages, drafts, slots[..], spawned, waiting)
      decreases Remaining(stages)
    {
      NoDeadlock(stages, spawned);
      var who: nat :| who <= n && Enabled(stages, spawned, who);
      if who == n {
        stages, waiting := SpawnNext(specs, slots[..], stages, drafts, spawned, waiting);
        spawned := spawned + 1;
      } else {
        stages, drafts, waiting := StepGoroutine(specs, slots, stages, drafts, spawned, waiting, who);
      }
    }
    EndsComplete(specs, stages, drafts, slots[..]);
    sections := slots[..];
  }

  /** One upstream's behaviour shows in one panel only, whatever it does. */
  lemma PanelsAreIsolated(specs: seq<Spec>, i: nat, s: Spec)
    requires i < |specs|
    ensures SectionsOf(specs[i := s]) == SectionsOf(specs)[i := SectionOf(s)]
  {
    assert |SectionsOf(specs)| == |specs|;
  }
}
