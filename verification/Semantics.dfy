/**
  What a program means. `Meaning` is the plain reading of a chain: run a task or a
  parallel group, then the branch it chose, then the rest. `Behaviour` describes what
  the interpreter does with any well-formed program, including the cases in which it
  departs from the plain reading. `FaithfulIff` says exactly for which programs the two
  agree.
 */
module Semantics {
  import opened Wrappers
  import opened Pointy
  import opened Programs
  import opened Verdicts

  // ------------------------------------------------------------ parts of programs

  function CaseBody(cs: Cases, key: nat): (r: Option<Program>)
    ensures r.Some? == HasCase(cs, key)
    ensures r.Some? ==> ProgramSize(r.value) <= CasesSize(cs)
    ensures r.Some? && WellFormedCases(cs) ==> WellFormed(r.value) && (key > 1 ==> r.value.next.Done?)
  {
    match cs
    case NoCases => None
    case Case(k, _, body, more) => if k == key then Some(body) else CaseBody(more, key)
  }

  /** A plain task joined to the next one by `||`. */
  predicate StartsGroup(p: Program) {
    Plain(p.atom) && p.next.Then? && p.next.op == Parallelism
  }

  /** The names of the parallel group that `p` begins with. */
  function GroupNames(p: Program): (r: seq<string>)
    ensures r != [] && r[0] == p.atom.name
    ensures |r| > 1 <==> StartsGroup(p)
  {
    if StartsGroup(p) then [p.atom.name] + GroupNames(p.next.rest) else [p.atom.name]
  }

  /** The part of `p` from the last task of that group on. */
  function GroupEnd(p: Program): (r: Program)
    ensures ProgramSize(r) <= ProgramSize(p) && !StartsGroup(r)
    ensures WellFormed(p) ==> WellFormed(r)
    ensures StartsGroup(p) ==> ProgramSize(r) < ProgramSize(p)
    ensures !StartsGroup(p) ==> r == p
  {
    if StartsGroup(p) then
      assert WellFormed(p) ==> WellFormedNext(p.next);
      GroupEnd(p.next.rest)
    else p
  }

  /** A verdict that ends the run: a stop, or a switch to a branch that is not configured. */
  predicate Stops(a: Atom, v: Verdict) {
    v.Cancelled? || v.Aborted? || (v.SwitchTo? && (v.key <= 1 || !HasCase(a.cases, v.key)))
  }

  function Chosen(a: Atom, v: Verdict): (r: Option<Program>)
    ensures r.Some? ==> ProgramSize(r.value) <= CasesSize(a.cases)
    ensures r.Some? && WellFormedAtom(a) ==> WellFormed(r.value)
  {
    match v
    case Failed => CaseBody(a.cases, 0)
    case Succeeded => CaseBody(a.cases, 1)
    case SwitchTo(k) => CaseBody(a.cases, k)
    case _ => None
  }

  // ------------------------------------------------------------ the plain reading

  type Trace = seq<seq<string>>
  /** The groups run so far, and whether no run has been stopped. */
  datatype Reading = Reading(trace: Trace, going: bool)

  function Meaning(o: Oracle, p: Program, r: Reading): Reading
    decreases ProgramSize(p)
  {
    if !r.going then r
    else
      var last := GroupEnd(p);
      var v := o(|r.trace|, last.atom.name);
      var trace := r.trace + [GroupNames(p)];
      if Stops(last.atom, v) then Reading(trace, false)
      else
        var chosen := Chosen(last.atom, v);
        var after := if chosen.Some? then Meaning(o, chosen.value, Reading(trace, true)) else Reading(trace, true);
        if last.next.Then? then Meaning(o, last.next.rest, after) else after
  }

  // ------------------------------------------------------------ what the interpreter does

  /**
    `drained`: the end of a chain has been reached, so that what runs now was taken from
    the sink queue. `halted`: a stop before that has ended the run.
   */
  datatype Progress = Progress(trace: Trace, drained: bool, halted: bool)

  /** The first task runs alone, whatever follows it. */
  function RunNames(p: Program, first: bool): seq<string> {
    if first then [p.atom.name] else GroupNames(p)
  }
  function RunEnd(p: Program, first: bool): (r: Program)
    ensures ProgramSize(r) <= ProgramSize(p) && (WellFormed(p) ==> WellFormed(r))
  {
    if first then p else GroupEnd(p)
  }

  /** What follows a conditional is queued only when it is not first and heads its group. */
  predicate QueuesRest(p: Program, first: bool) { !first && !Plain(p.atom) && p.next.Then? }

  function Behaviour(o: Oracle, p: Program, first: bool, s: Progress): (r: Progress)
    ensures !s.halted && !r.halted ==> r.drained
    ensures s.drained && !s.halted ==> !r.halted
    decreases ProgramSize(p)
  {
    if s.halted then s
    else
      var last := RunEnd(p, first);
      var v := o(|s.trace|, last.atom.name);
      var s1 := s.(trace := s.trace + [RunNames(p, first)]);
      if Stops(last.atom, v) then
        if !s.drained then s1.(halted := true)
        else if QueuesRest(p, first) then Behaviour(o, p.next.rest, false, s1) else s1
      else if Plain(last.atom) then
        if last.next.Then? then Behaviour(o, last.next.rest, false, s1) else s1.(drained := true)
      else
        var chosen := Chosen(last.atom, v);
        var s2 := if chosen.Some? then Behaviour(o, chosen.value, first && v.SwitchTo?, s1)
                  else s1.(drained := true);
        if QueuesRest(p, first) then Behaviour(o, p.next.rest, false, s2) else s2
  }

  const Start: Progress := Progress([], false, false)

  // ------------------------------------------------------------ when the two agree

  /** Below the first task: no conditional that ends a longer group is followed by anything. */
  predicate Faithful(p: Program)
    decreases ProgramSize(p), 0
  {
    var last := GroupEnd(p);
    && (StartsGroup(p) && !Plain(last.atom) ==> last.next.Done?)
    && FaithfulCases(last.atom.cases)
    && (last.next.Then? ==> Faithful(last.next.rest))
  }
  predicate FaithfulCases(cs: Cases)
    decreases CasesSize(cs), 1
  {
    match cs case NoCases => true
    case Case(_, _, body, more) => Faithful(body) && FaithfulCases(more)
  }

  /** The first task is not joined by `||`, and if it has branches, nothing follows it. */
  predicate FaithfulProgram(p: Program) {
    && !StartsGroup(p)
    && (!Plain(p.atom) ==> p.next.Done?)
    && FaithfulCases(p.atom.cases)
    && (p.next.Then? ==> Faithful(p.next.rest))
  }

  lemma {:induction false} FaithfulCase(cs: Cases, key: nat)
    requires FaithfulCases(cs) && HasCase(cs, key)
    ensures Faithful(CaseBody(cs, key).value)
  {
    if cs.key != key { FaithfulCase(cs.more, key); }
  }

  lemma NoChoice(a: Atom, v: Verdict)
    requires Plain(a)
    ensures Chosen(a, v).None?
  {
  }

  lemma FaithfulChoice(a: Atom, v: Verdict)
    requires FaithfulCases(a.cases) && Chosen(a, v).Some?
    ensures Faithful(Chosen(a, v).value)
  {
    FaithfulCase(a.cases, if v.Failed? then 0 else if v.Succeeded? then 1 else v.key);
  }

  /** Below the first task: the interpreter runs what the plain reading runs. */
  lemma {:induction false} BelowAgrees(o: Oracle, p: Program, s: Progress)
    requires WellFormed(p) && Faithful(p) && !s.halted
    requires Meaning(o, p, Reading(s.trace, true)).going
    ensures Behaviour(o, p, false, s) == Progress(Meaning(o, p, Reading(s.trace, true)).trace, true, false)
    decreases ProgramSize(p)
  {
    var last := GroupEnd(p);
    var v := o(|s.trace|, last.atom.name);
    var s1 := s.(trace := s.trace + [GroupNames(p)]);
    var chosen := Chosen(last.atom, v);
    assert WellFormedNext(last.next);
    if Plain(last.atom) {
      NoChoice(last.atom, v);
      if last.next.Then? { BelowAgrees(o, last.next.rest, s1); }
    } else {
      if chosen.Some? {
        FaithfulChoice(last.atom, v);
        BelowAgrees(o, chosen.value, s1);
      }
      var s2 := if chosen.Some? then Behaviour(o, chosen.value, false, s1) else s1.(drained := true);
      if last.next.Then? {
        assert last == p;
        BelowAgrees(o, p.next.rest, s2);
      }
    }
  }

  /** From the first task: faithful programs behave as they read. */
  lemma {:induction false} FirstAgrees(o: Oracle, p: Program, s: Progress)
    requires WellFormed(p) && FaithfulProgram(p) && !s.halted
    requires Meaning(o, p, Reading(s.trace, true)).going
    ensures Behaviour(o, p, true, s) == Progress(Meaning(o, p, Reading(s.trace, true)).trace, true, false)
    decreases ProgramSize(p)
  {
    var v := o(|s.trace|, p.atom.name);
    var s1 := s.(trace := s.trace + [[p.atom.name]]);
    var chosen := Chosen(p.atom, v);
    if Plain(p.atom) {
      NoChoice(p.atom, v);
      if p.next.Then? { BelowAgrees(o, p.next.rest, s1); }
    } else if chosen.Some? {
      FaithfulChoice(p.atom, v);
      if v.SwitchTo? {
        assert WellFormedCases(p.atom.cases);
        assert chosen.value.next.Done?;
        FirstAgrees(o, chosen.value, s1);
      } else {
        BelowAgrees(o, chosen.value, s1);
      }
    }
  }

  // ------------------------------------------------------------ and only then

  ghost predicate SameVerdicts(o: Oracle, o': Oracle, lo: nat, hi: nat) {
    forall i, e :: lo <= i < hi ==> o(i, e) == o'(i, e)
  }

  lemma PrefixTrans(a: Trace, b: Trace, c: Trace)
    requires a <= b && b <= c
    ensures a <= c && |a| <= |b| <= |c|
  {
  }

  lemma {:induction false} BehaviourGrows(o: Oracle, p: Program, first: bool, s: Progress)
    ensures s.trace <= Behaviour(o, p, first, s).trace
    ensures !s.halted ==> s.trace + [RunNames(p, first)] <= Behaviour(o, p, first, s).trace
    decreases ProgramSize(p)
  {
    if !s.halted {
      var last := RunEnd(p, first);
      var v := o(|s.trace|, last.atom.name);
      var s1 := s.(trace := s.trace + [RunNames(p, first)]);
      var chosen := Chosen(last.atom, v);
      var end := Behaviour(o, p, first, s).trace;
      assert s1.trace <= end by {
        if Stops(last.atom, v) {
          if QueuesRest(p, first) { BehaviourGrows(o, p.next.rest, false, s1); }
        } else if Plain(last.atom) {
          if last.next.Then? { BehaviourGrows(o, last.next.rest, false, s1); }
        } else {
          var s2 := if chosen.Some? then Behaviour(o, chosen.value, first && v.SwitchTo?, s1) else s1.(drained := true);
          if chosen.Some? { BehaviourGrows(o, chosen.value, first && v.SwitchTo?, s1); }
          if QueuesRest(p, first) { BehaviourGrows(o, p.next.rest, false, s2); PrefixTrans(s1.trace, s2.trace, end); }
        }
      }
      PrefixTrans(s.trace, s1.trace, end);
    }
  }

  lemma {:induction false} MeaningGrows(o: Oracle, p: Program, r: Reading)
    ensures r.trace <= Meaning(o, p, r).trace
    ensures r.going ==> r.trace + [GroupNames(p)] <= Meaning(o, p, r).trace
    decreases ProgramSize(p)
  {
    if r.going {
      var last := GroupEnd(p);
      var v := o(|r.trace|, last.atom.name);
      var r1 := Reading(r.trace + [GroupNames(p)], true);
      var chosen := Chosen(last.atom, v);
      if !Stops(last.atom, v) {
        var r2 := if chosen.Some? then Meaning(o, chosen.value, r1) else r1;
        if chosen.Some? { MeaningGrows(o, chosen.value, r1); }
        if last.next.Then? { MeaningGrows(o, last.next.rest, r2); }
      }
    }
  }

  /** A run depends only on the verdicts of the dispatches it makes. */
  lemma {:induction false} BehaviourLocal(o: Oracle, o': Oracle, p: Program, first: bool, s: Progress)
    requires SameVerdicts(o, o', |s.trace|, |Behaviour(o, p, first, s).trace|)
    ensures Behaviour(o', p, first, s) == Behaviour(o, p, first, s)
    decreases ProgramSize(p)
  {
    if !s.halted {
      BehaviourGrows(o, p, first, s);
      var last := RunEnd(p, first);
      var v := o(|s.trace|, last.atom.name);
      assert o'(|s.trace|, last.atom.name) == v;
      var s1 := s.(trace := s.trace + [RunNames(p, first)]);
      var chosen := Chosen(last.atom, v);
      if Stops(last.atom, v) {
        if s.drained && QueuesRest(p, first) { BehaviourLocal(o, o', p.next.rest, false, s1); }
      } else if Plain(last.atom) {
        if last.next.Then? { BehaviourLocal(o, o', last.next.rest, false, s1); }
      } else {
        var s2 := if chosen.Some? then Behaviour(o, chosen.value, first && v.SwitchTo?, s1) else s1.(drained := true);
        if QueuesRest(p, first) { BehaviourGrows(o, p.next.rest, false, s2); }
        if chosen.Some? {
          BehaviourGrows(o, chosen.value, first && v.SwitchTo?, s1);
          BehaviourLocal(o, o', chosen.value, first && v.SwitchTo?, s1);
        }
        if QueuesRest(p, first) { BehaviourLocal(o, o', p.next.rest, false, s2); }
      }
    }
  }

  lemma {:induction false} MeaningLocal(o: Oracle, o': Oracle, p: Program, r: Reading)
    requires SameVerdicts(o, o', |r.trace|, |Meaning(o, p, r).trace|)
    ensures Meaning(o', p, r) == Meaning(o, p, r)
    decreases ProgramSize(p)
  {
    if r.going {
      MeaningGrows(o, p, r);
      var last := GroupEnd(p);
      var v := o(|r.trace|, last.atom.name);
      assert o'(|r.trace|, last.atom.name) == v;
      var r1 := Reading(r.trace + [GroupNames(p)], true);
      var chosen := Chosen(last.atom, v);
      if !Stops(last.atom, v) {
        var r2 := if chosen.Some? then Meaning(o, chosen.value, r1) else r1;
        if last.next.Then? { MeaningGrows(o, last.next.rest, r2); }
        if chosen.Some? { MeaningGrows(o, chosen.value, r1); MeaningLocal(o, o', chosen.value, r1); }
        if last.next.Then? { MeaningLocal(o, o', last.next.rest, r2); }
      }
    }
  }

  /** Verdicts for some dispatches; every other one succeeds. */
  type Script = map<nat, Verdict>

  function Scripted(w: Script): Oracle {
    (i, e) => if i in w then w[i] else Succeeded
  }

  ghost predicate Quiet(w: Script, n: nat) { forall i :: i >= n ==> i !in w }

  /** How many groups the plain reading runs when everything succeeds. */
  function MeaningLength(p: Program): (n: nat)
    ensures n > 0
    decreases ProgramSize(p)
  {
    var last := GroupEnd(p);
    var body := CaseBody(last.atom.cases, 1);
    1 + (if body.Some? then MeaningLength(body.value) else 0)
      + (if last.next.Then? then MeaningLength(last.next.rest) else 0)
  }

  /** How many of them the interpreter runs, below the first task. */
  function BehaviourLength(p: Program): (n: nat)
    ensures n <= MeaningLength(p)
    decreases ProgramSize(p)
  {
    var last := GroupEnd(p);
    var body := CaseBody(last.atom.cases, 1);
    1 + (if body.Some? then BehaviourLength(body.value) else 0)
      + (if Plain(last.atom) then if last.next.Then? then BehaviourLength(last.next.rest) else 0
         else if QueuesRest(p, false) then BehaviourLength(p.next.rest) else 0)
  }

  lemma {:induction false} QuietMeaning(w: Script, p: Program, r: Reading)
    requires r.going && Quiet(w, |r.trace|)
    ensures var q := Meaning(Scripted(w), p, r); q.going && |q.trace| == |r.trace| + MeaningLength(p)
    decreases ProgramSize(p)
  {
    var last := GroupEnd(p);
    var body := CaseBody(last.atom.cases, 1);
    var r1 := Reading(r.trace + [GroupNames(p)], true);
    if body.Some? { QuietMeaning(w, body.value, r1); }
    var r2 := if body.Some? then Meaning(Scripted(w), body.value, r1) else r1;
    if last.next.Then? { QuietMeaning(w, last.next.rest, r2); }
  }

  lemma {:induction false} QuietBehaviour(w: Script, p: Program, s: Progress)
    requires !s.halted && Quiet(w, |s.trace|)
    ensures var b := Behaviour(Scripted(w), p, false, s); !b.halted && |b.trace| == |s.trace| + BehaviourLength(p)
    decreases ProgramSize(p)
  {
    var last := GroupEnd(p);
    var body := CaseBody(last.atom.cases, 1);
    var s1 := s.(trace := s.trace + [GroupNames(p)]);
    if Plain(last.atom) {
      if last.next.Then? { QuietBehaviour(w, last.next.rest, s1); }
    } else {
      if body.Some? { QuietBehaviour(w, body.value, s1); }
      var s2 := if body.Some? then Behaviour(Scripted(w), body.value, false, s1) else s1.(drained := true);
      if QueuesRest(p, false) { QuietBehaviour(w, p.next.rest, s2); }
    }
  }

  lemma {:induction false} UnfaithfulCase(cs: Cases) returns (key: nat)
    requires WellFormedCases(cs) && !FaithfulCases(cs)
    ensures HasCase(cs, key) && !Faithful(CaseBody(cs, key).value)
  {
    if !Faithful(cs.body) { key := cs.key; }
    else {
      key := UnfaithfulCase(cs.more);
    }
  }

  function Choosing(key: nat): Verdict {
    if key == 0 then Failed else if key == 1 then Succeeded else SwitchTo(key)
  }

  /** The script `w` makes the interpreter run fewer groups than the plain reading. */
  ghost predicate Loses(w: Script, m: nat, p: Program, s: Progress) {
    var o := Scripted(w);
    var b, q := Behaviour(o, p, false, s), Meaning(o, p, Reading(s.trace, true));
    && (forall i :: i in w ==> |s.trace| <= i < m)
    && q.going && !b.halted && |s.trace| <= m <= |b.trace| < |q.trace|
  }

  /** Putting a verdict in front of a script does not change what comes later. */
  lemma Prepend(w: Script, n: nat, v: Verdict, p: Program, first: bool, s: Progress)
    requires n < |s.trace|
    ensures Behaviour(Scripted(w[n := v]), p, first, s) == Behaviour(Scripted(w), p, first, s)
    ensures Meaning(Scripted(w[n := v]), p, Reading(s.trace, true)) == Meaning(Scripted(w), p, Reading(s.trace, true))
  {
    BehaviourLocal(Scripted(w), Scripted(w[n := v]), p, first, s);
    MeaningLocal(Scripted(w), Scripted(w[n := v]), p, Reading(s.trace, true));
  }

  lemma {:induction false} LostRun(p: Program, s: Progress) returns (w: Script, m: nat)
    requires WellFormed(p) && !Faithful(p) && !s.halted
    ensures Loses(w, m, p, s)
    decreases ProgramSize(p)
  {
    var last := GroupEnd(p);
    assert WellFormedAtom(last.atom) && WellFormedNext(last.next);
    if StartsGroup(p) && !Plain(last.atom) && last.next.Then? {
      w, m := map[], |s.trace|;
      QuietBehaviour(w, p, s);
      QuietMeaning(w, p, Reading(s.trace, true));
      assert BehaviourLength(p) < MeaningLength(p);
    } else if !FaithfulCases(last.atom.cases) {
      w, m := LostInCase(p, s);
    } else {
      w, m := LostInRest(p, s);
    }
  }

  /** One step into the branch with label `k`. */
  lemma IntoCase(o: Oracle, p: Program, first: bool, s: Progress, k: nat)
    requires !s.halted && HasCase(RunEnd(p, first).atom.cases, k)
    requires o(|s.trace|, RunEnd(p, first).atom.name) == Choosing(k)
    ensures var s1 := s.(trace := s.trace + [RunNames(p, first)]);
      var b1 := Behaviour(o, CaseBody(RunEnd(p, first).atom.cases, k).value, first && k > 1, s1);
      Behaviour(o, p, first, s) == if QueuesRest(p, first) then Behaviour(o, p.next.rest, false, b1) else b1
  {
  }

  lemma MeaningIntoCase(o: Oracle, p: Program, r: Reading, k: nat)
    requires r.going && HasCase(GroupEnd(p).atom.cases, k) && o(|r.trace|, GroupEnd(p).atom.name) == Choosing(k)
    ensures var last := GroupEnd(p);
      var q1 := Meaning(o, CaseBody(last.atom.cases, k).value, Reading(r.trace + [GroupNames(p)], true));
      Meaning(o, p, r) == if last.next.Then? then Meaning(o, last.next.rest, q1) else q1
  {
  }

  lemma {:induction false} LostInCase(p: Program, s: Progress) returns (w: Script, m: nat)
    requires WellFormed(p) && !s.halted
    requires var last := GroupEnd(p);
      !FaithfulCases(last.atom.cases) && !(StartsGroup(p) && !Plain(last.atom) && last.next.Then?)
    ensures Loses(w, m, p, s)
    decreases ProgramSize(p), 0
  {
    var last, n := GroupEnd(p), |s.trace|;
    assert WellFormedAtom(last.atom);
    var k := UnfaithfulCase(last.atom.cases);
    var body := CaseBody(last.atom.cases, k).value;
    var s1 := s.(trace := s.trace + [GroupNames(p)]);
    w, m := LostRun(body, s1);
    Prepend(w, n, Choosing(k), body, false, s1);
    w := w[n := Choosing(k)];
    AfterCase(w, m, p, s, k);
  }

  /** A loss inside the chosen branch is not made up for by the rest. */
  lemma AfterCase(w: Script, m: nat, p: Program, s: Progress, k: nat)
    requires !s.halted && HasCase(GroupEnd(p).atom.cases, k)
    requires !(StartsGroup(p) && GroupEnd(p).next.Then?)
    requires |s.trace| in w && w[|s.trace|] == Choosing(k)
    requires (forall i :: i in w ==> |s.trace| <= i < m) && |s.trace| <= m
    requires var s1 := s.(trace := s.trace + [GroupNames(p)]);
      var body := CaseBody(GroupEnd(p).atom.cases, k).value;
      var b1, q1 := Behaviour(Scripted(w), body, false, s1), Meaning(Scripted(w), body, Reading(s1.trace, true));
      q1.going && !b1.halted && m <= |b1.trace| < |q1.trace|
    ensures Loses(w, m, p, s)
  {
    var o, last := Scripted(w), GroupEnd(p);
    var s1 := s.(trace := s.trace + [GroupNames(p)]);
    var body := CaseBody(last.atom.cases, k).value;
    var b1, q1 := Behaviour(o, body, false, s1), Meaning(o, body, Reading(s1.trace, true));
    IntoCase(o, p, false, s, k);
    MeaningIntoCase(o, p, Reading(s.trace, true), k);
    if last.next.Then? {
      QuietBehaviour(w, p.next.rest, b1);
      QuietMeaning(w, p.next.rest, q1);
    }
  }

  lemma {:induction false} LostInRest(p: Program, s: Progress) returns (w: Script, m: nat)
    requires WellFormed(p) && !s.halted
    requires var last := GroupEnd(p);
      && FaithfulCases(last.atom.cases) && !(StartsGroup(p) && !Plain(last.atom) && last.next.Then?)
      && last.next.Then? && !Faithful(last.next.rest)
    ensures Loses(w, m, p, s)
    decreases ProgramSize(p), 0
  {
    var last, quiet := GroupEnd(p), Scripted(map[]);
    assert WellFormedAtom(last.atom) && WellFormedNext(last.next);
    var s1 := s.(trace := s.trace + [GroupNames(p)]);
    var body := CaseBody(last.atom.cases, 1);
    if body.None? {
      w, m := LostRun(last.next.rest, if Plain(last.atom) then s1 else s1.(drained := true));
    } else {
      FaithfulCase(last.atom.cases, 1);
      QuietMeaning(map[], body.value, Reading(s1.trace, true));
      BelowAgrees(quiet, body.value, s1);
      var s2 := Behaviour(quiet, body.value, false, s1);
      w, m := LostRun(last.next.rest, s2);
      BehaviourGrows(quiet, body.value, false, s1);
      BehaviourLocal(quiet, Scripted(w), body.value, false, s1);
      MeaningLocal(quiet, Scripted(w), body.value, Reading(s1.trace, true));
    }
  }

  lemma {:induction false} LostFirst(p: Program, s: Progress) returns (w: Script)
    requires WellFormed(p) && !FaithfulProgram(p) && !s.halted
    ensures forall i :: i in w ==> |s.trace| <= i
    ensures Meaning(Scripted(w), p, Reading(s.trace, true)).going
    ensures Behaviour(Scripted(w), p, true, s).trace != Meaning(Scripted(w), p, Reading(s.trace, true)).trace
    decreases ProgramSize(p)
  {
    var n, r := |s.trace|, Reading(s.trace, true);
    var s1 := s.(trace := s.trace + [[p.atom.name]]);
    assert WellFormedAtom(p.atom) && WellFormedNext(p.next);
    if StartsGroup(p) {
      w := map[];
      QuietMeaning(w, p, r);
      MeaningGrows(Scripted(w), p, r);
      BehaviourGrows(Scripted(w), p, true, s);
      assert Behaviour(Scripted(w), p, true, s).trace[n] == [p.atom.name];
      assert Meaning(Scripted(w), p, r).trace[n] == GroupNames(p);
    } else if !Plain(p.atom) && p.next.Then? {
      w := map[];
      QuietMeaning(w, p, r);
      var body := CaseBody(p.atom.cases, 1);
      if body.Some? { QuietBehaviour(w, body.value, s1); }
    } else if !FaithfulCases(p.atom.cases) {
      w := LostFirstCase(p, s);
    } else {
      var m;
      w, m := LostRun(p.next.rest, s1);
    }
  }

  lemma {:induction false} LostFirstCase(p: Program, s: Progress) returns (w: Script)
    requires WellFormed(p) && !FaithfulCases(p.atom.cases) && p.next.Done? && !s.halted
    ensures forall i :: i in w ==> |s.trace| <= i
    ensures Meaning(Scripted(w), p, Reading(s.trace, true)).going
    ensures Behaviour(Scripted(w), p, true, s).trace != Meaning(Scripted(w), p, Reading(s.trace, true)).trace
    decreases ProgramSize(p), 0
  {
    var n := |s.trace|;
    var s1 := s.(trace := s.trace + [[p.atom.name]]);
    var k := UnfaithfulCase(p.atom.cases);
    var body := CaseBody(p.atom.cases, k).value;
    if k <= 1 {
      var m;
      w, m := LostRun(body, s1);
    } else {
      w := LostFirst(body, s1);
    }
    Prepend(w, n, Choosing(k), body, k > 1, s1);
    w := w[n := Choosing(k)];
    IntoCase(Scripted(w), p, true, s, k);
    MeaningIntoCase(Scripted(w), p, Reading(s.trace, true), k);
  }

  /**
    The interpreter runs a program as it reads, for all verdicts that do not stop the
    reading, exactly when the program is faithful: its first task is not joined by `||`,
    nothing follows a first task that has branches, and nothing follows a conditional
    that ends a parallel group.
   */
  lemma FaithfulIff(p: Program)
    requires WellFormed(p)
    ensures FaithfulProgram(p) <==>
      forall o: Oracle :: Meaning(o, p, Reading([], true)).going ==>
        Behaviour(o, p, true, Start).trace == Meaning(o, p, Reading([], true)).trace
  {
    if FaithfulProgram(p) {
      forall o: Oracle | Meaning(o, p, Reading([], true)).going
        ensures Behaviour(o, p, true, Start).trace == Meaning(o, p, Reading([], true)).trace
      {
        FirstAgrees(o, p, Start);
      }
    } else {
      var w := LostFirst(p, Start);
      assert Meaning(Scripted(w), p, Reading([], true)).going;
    }
  }
}
