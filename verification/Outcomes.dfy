/**
  How the outcome of a context is decided from the futures of its events: the results and
  errors it records, whether it is cancelled or switches, and how an evaluator judges it.
 */
module Outcomes {
  import opened Wrappers
  import opened Verdicts

  /** The four evaluation states of an event, by the test each one makes. */
  datatype Evaluator = SuccessOnAll | FailureOnPartialError | SuccessOnPartial | FailureOnAll

  function Evaluate(e: Evaluator, results: nat, errors: nat): bool {
    match e
    case SuccessOnAll => errors == 0 && results > 0
    case SuccessOnPartial => results > 0
    case FailureOnPartialError => errors > 0
    case FailureOnAll => results == 0 && errors > 0
  }

  predicate JudgesSuccess(e: Evaluator) { e.SuccessOnAll? || e.SuccessOnPartial? }

  /** `context_evaluation`; `success` selects the context of the question. */
  function ContextEvaluation(e: Evaluator, results: nat, errors: nat, success: bool): bool {
    var status := Evaluate(e, results, errors);
    if success then (if JudgesSuccess(e) then status else !status)
    else if !JudgesSuccess(e) then status
    else !status
  }

  /** How a future of an event ends, with the content of its result. */
  datatype Future =
    | Returned(error: bool, content: nat)
    | ReturnedSwitch(error: bool, key: nat)
    | RaisedSwitch(error: bool, key: nat)
    | RaisedStop(content: nat)
    | Raised(content: nat)

  predicate IsSwitch(f: Future) { f.ReturnedSwitch? || f.RaisedSwitch? }
  predicate IsError(f: Future) { f.RaisedStop? || f.Raised? || f.error }

  /** What starting the events of a context gives. */
  datatype Launch = LaunchFailed(content: nat) | Launched(futures: seq<Future>)

  /** The erroneous futures, in order. */
  function Errors(fs: seq<Future>): seq<Future> {
    if fs == [] then [] else Errors(fs[..|fs| - 1]) + if IsError(fs[|fs| - 1]) then [fs[|fs| - 1]] else []
  }

  /** The futures up to and including the first one that asks for a switch. */
  function Taken(fs: seq<Future>): (n: nat)
    ensures n <= |fs|
    ensures forall i :: 0 <= i < n - 1 ==> !IsSwitch(fs[i])
    ensures n < |fs| ==> n > 0 && IsSwitch(fs[n - 1])
  {
    if fs == [] then 0
    else if IsSwitch(fs[0]) then 1
    else 1 + Taken(fs[1..])
  }

  predicate Switches(fs: seq<Future>) { Taken(fs) > 0 && IsSwitch(fs[Taken(fs) - 1]) }
  predicate HasStop(fs: seq<Future>) { exists i :: 0 <= i < |fs| && fs[i].RaisedStop? }

  /** The verdict of a context whose futures are handled in the given order. */
  function Verdict(l: Launch, e: Evaluator): Verdicts.Verdict {
    match l
    case LaunchFailed(_) => Aborted
    case Launched(fs) =>
      if HasStop(fs[..Taken(fs)]) then Cancelled
      else if Switches(fs) then SwitchTo(fs[Taken(fs) - 1].key)
      else if ContextEvaluation(e, |fs|, |Errors(fs)|, false) then Failed
      else Succeeded
  }

  /** The same, after the check that a switch has a configured descriptor. */
  function Settled(l: Launch, e: Evaluator, keys: set<nat>): Verdicts.Verdict {
    var v := Verdict(l, e);
    if v.SwitchTo? && v.key !in keys then Cancelled else v
  }

  // ------------------------------------------------------------ evaluators

  lemma SuccessIsNotFailure(e: Evaluator, results: nat, errors: nat)
    ensures ContextEvaluation(e, results, errors, true) <==> !ContextEvaluation(e, results, errors, false)
  {
  }

  // ------------------------------------------------------------ order of completion

  lemma {:induction false} ErrorsCount(fs: seq<Future>, f: Future)
    ensures multiset(Errors(fs))[f] == if IsError(f) then multiset(fs)[f] else 0
  {
    if fs != [] {
      var n := |fs| - 1;
      var front, last := fs[..n], fs[n];
      var tail := if IsError(last) then [last] else [];
      ErrorsCount(front, f);
      assert Errors(fs) == Errors(front) + tail;
      assert multiset(Errors(fs)) == multiset(Errors(front)) + multiset(tail);
      assert fs == front + [last];
    }
  }

  /** Lists of the same futures have the same erroneous ones. */
  lemma ErrorsOrder(fs: seq<Future>, gs: seq<Future>)
    requires multiset(fs) == multiset(gs)
    ensures multiset(Errors(fs)) == multiset(Errors(gs)) && |Errors(fs)| == |Errors(gs)| && |fs| == |gs|
  {
    forall f ensures multiset(Errors(fs))[f] == multiset(Errors(gs))[f] {
      ErrorsCount(fs, f);
      ErrorsCount(gs, f);
    }
    assert |multiset(fs)| == |fs| && |multiset(gs)| == |gs|;
    assert |multiset(Errors(fs))| == |Errors(fs)| && |multiset(Errors(gs))| == |Errors(gs)|;
  }

  ghost predicate NoSwitch(fs: seq<Future>) { forall f :: f in fs ==> !IsSwitch(f) }

  lemma StopMember(fs: seq<Future>)
    ensures HasStop(fs) <==> exists f :: f in fs && f.RaisedStop?
  {
    if f :| f in fs && f.RaisedStop? {
      var i :| 0 <= i < |fs| && fs[i] == f;
    }
  }

  lemma SameMembers(fs: seq<Future>, gs: seq<Future>)
    requires multiset(fs) == multiset(gs)
    ensures forall f :: f in fs <==> f in gs
    ensures HasStop(fs) == HasStop(gs)
  {
    forall f ensures f in fs <==> f in gs {
      assert f in multiset(fs) <==> f in multiset(gs);
    }
    StopMember(fs);
    StopMember(gs);
  }

  lemma TakenAll(fs: seq<Future>)
    requires NoSwitch(fs)
    ensures Taken(fs) == |fs| && fs[..Taken(fs)] == fs && !Switches(fs)
  {
    assert forall i :: 0 <= i < |fs| ==> !IsSwitch(fs[i]);
  }

  lemma SwitchTaken(fs: seq<Future>)
    ensures NoSwitch(fs) || Switches(fs)
  {
    if !Switches(fs) {
      assert forall i :: 0 <= i < |fs| ==> !IsSwitch(fs[i]);
    }
  }

  /** Some future asks for a configured switch, and another one for something else. */
  ghost predicate Contested(fs: seq<Future>, keys: set<nat>) {
    exists f, g :: f in fs && g in fs && IsSwitch(f) && f.key in keys
      && (g.RaisedStop? || (IsSwitch(g) && g.key != f.key))
  }

  lemma Uncontested(fs: seq<Future>, e: Evaluator, keys: set<nat>)
    requires !NoSwitch(fs) && !Contested(fs, keys)
    ensures forall f :: f in fs && IsSwitch(f) && f.key in keys ==> Settled(Launched(fs), e, keys) == SwitchTo(f.key)
    ensures (forall f :: f in fs && IsSwitch(f) ==> f.key !in keys) ==> Settled(Launched(fs), e, keys) == Cancelled
  {
    var n := Taken(fs);
    SwitchTaken(fs);
    assert fs[n - 1] in fs;
    StopMember(fs[..n]);
  }

  /** `fs` with its i-th future moved to the front. */
  function Promote(fs: seq<Future>, i: nat): (r: seq<Future>)
    requires i < |fs|
    ensures multiset(r) == multiset(fs) && r[0] == fs[i]
  {
    assert fs == fs[..i] + [fs[i]] + fs[i + 1..];
    [fs[i]] + fs[..i] + fs[i + 1..]
  }

  lemma FrontSwitch(fs: seq<Future>, e: Evaluator, keys: set<nat>)
    requires fs != [] && IsSwitch(fs[0])
    ensures Settled(Launched(fs), e, keys) == if fs[0].key in keys then SwitchTo(fs[0].key) else Cancelled
  {
    assert Taken(fs) == 1 && fs[..1] == [fs[0]];
  }

  lemma FrontStop(fs: seq<Future>, e: Evaluator, keys: set<nat>)
    requires fs != [] && fs[0].RaisedStop?
    ensures Settled(Launched(fs), e, keys) == Cancelled
  {
    assert Taken(fs) > 0;
    assert fs[..Taken(fs)][0].RaisedStop?;
  }

  /**
    The outcome of a context does not depend on the order in which its futures complete,
    exactly when no configured switch is requested beside a stop or another switch.
   */
  lemma OrderMatters(fs: seq<Future>, e: Evaluator, keys: set<nat>)
    ensures !Contested(fs, keys) <==>
      forall gs :: multiset(gs) == multiset(fs) ==> Settled(Launched(gs), e, keys) == Settled(Launched(fs), e, keys)
  {
    if Contested(fs, keys) {
      var f, g :| f in fs && g in fs && IsSwitch(f) && f.key in keys
        && (g.RaisedStop? || (IsSwitch(g) && g.key != f.key));
      var i :| 0 <= i < |fs| && fs[i] == f;
      var j :| 0 <= j < |fs| && fs[j] == g;
      var a, b := Promote(fs, i), Promote(fs, j);
      FrontSwitch(a, e, keys);
      if g.RaisedStop? { FrontStop(b, e, keys); } else { FrontSwitch(b, e, keys); }
      assert Settled(Launched(a), e, keys) != Settled(Launched(b), e, keys);
    } else {
      forall gs | multiset(gs) == multiset(fs)
        ensures Settled(Launched(gs), e, keys) == Settled(Launched(fs), e, keys)
      {
        SameOutcome(fs, gs, e, keys);
      }
    }
  }

  /** A stop and a switch to a configured branch: which one is handled first decides. */
  lemma StopOrSwitch(e: Evaluator)
    ensures Settled(Launched([RaisedStop(0), RaisedSwitch(false, 2)]), e, {2}) == Cancelled
    ensures Settled(Launched([RaisedSwitch(false, 2), RaisedStop(0)]), e, {2}) == SwitchTo(2)
  {
    FrontStop([RaisedStop(0), RaisedSwitch(false, 2)], e, {2});
    FrontSwitch([RaisedSwitch(false, 2), RaisedStop(0)], e, {2});
  }

  lemma SameOutcome(fs: seq<Future>, gs: seq<Future>, e: Evaluator, keys: set<nat>)
    requires multiset(gs) == multiset(fs) && !Contested(fs, keys)
    ensures Settled(Launched(gs), e, keys) == Settled(Launched(fs), e, keys)
  {
    SameMembers(fs, gs);
    if NoSwitch(fs) {
      TakenAll(fs);
      TakenAll(gs);
      ErrorsOrder(fs, gs);
    } else {
      Uncontested(fs, e, keys);
      Uncontested(gs, e, keys);
    }
  }

  /**
    Under the default evaluator, a context without switch requests fails exactly when it
    was stopped, had no futures, or some future erred, in whatever order they complete.
   */
  lemma DefaultVerdict(fs: seq<Future>, gs: seq<Future>)
    requires NoSwitch(fs) && multiset(gs) == multiset(fs)
    ensures Verdict(Launched(gs), SuccessOnAll) == Succeeded <==> fs != [] && forall f :: f in fs ==> !IsError(f)
    ensures Verdict(Launched(gs), SuccessOnAll) == Cancelled <==> HasStop(fs)
  {
    SameMembers(fs, gs);
    TakenAll(gs);
    ErrorsOrder(fs, gs);
    ErrorFree(gs);
    StopMember(gs);
    assert |fs| == 0 <==> fs == [];
  }

  lemma {:induction false} ErrorFree(fs: seq<Future>)
    ensures |Errors(fs)| == 0 <==> forall f :: f in fs ==> !IsError(f)
  {
    if fs != [] {
      var n := |fs| - 1;
      ErrorFree(fs[..n]);
      assert forall f :: f in fs <==> f in fs[..n] || f == fs[n];
    }
  }

  // ------------------------------------------------------------ what is recorded

  /** The results and the errors that a context records: those of the futures it handles. */
  ghost function Recorded(fs: seq<Future>): multiset<Future> { multiset(fs[..Taken(fs)]) }
  ghost function RecordedErrors(fs: seq<Future>): multiset<Future> { multiset(Errors(fs[..Taken(fs)])) }

  function OneError(f: Future): multiset<Future> { if IsError(f) then multiset{f} else multiset{} }

  lemma FrontRecord(fs: seq<Future>)
    requires fs != [] && IsSwitch(fs[0])
    ensures Recorded(fs) == multiset{fs[0]} && RecordedErrors(fs) == OneError(fs[0])
  {
    var f := fs[0];
    assert Taken(fs) == 1 && fs[..1] == [f] && [f][..0] == [];
    assert Errors([f]) == Errors([]) + if IsError(f) then [f] else [];
  }

  /** A future handled before the first switch is recorded. */
  lemma SecondRecord(fs: seq<Future>)
    requires |fs| > 1 && !IsSwitch(fs[0])
    ensures fs[0] in Recorded(fs) && (IsError(fs[0]) ==> fs[0] in RecordedErrors(fs))
  {
    assert Taken(fs) >= 1;
    assert fs[..Taken(fs)][0] == fs[0];
    ErrorsCount(fs[..Taken(fs)], fs[0]);
  }

  lemma InFront(fs: seq<Future>, f: Future) returns (gs: seq<Future>)
    requires f in fs
    ensures multiset(gs) == multiset(fs) && |gs| == |fs| && gs != [] && gs[0] == f
  {
    var i :| 0 <= i < |fs| && fs[i] == f;
    gs := Promote(fs, i);
  }

  ghost predicate SameRecord(fs: seq<Future>) {
    forall gs :: multiset(gs) == multiset(fs) ==> Recorded(gs) == Recorded(fs)
  }
  ghost predicate SameErrors(fs: seq<Future>) {
    forall gs :: multiset(gs) == multiset(fs) ==> RecordedErrors(gs) == RecordedErrors(fs)
  }

  /** A switch, and something else that is handled before it in one order and not in another. */
  lemma Separates(fs: seq<Future>, f: Future, g: Future)
    requires f in fs && g in fs && IsSwitch(f) && f != g
    ensures !SameRecord(fs)
    ensures OneError(f) != OneError(g) && (IsSwitch(g) || IsError(g)) ==> !SameErrors(fs)
  {
    var a := InFront(fs, f);
    var b := InFront(fs, g);
    FrontRecord(a);
    if IsSwitch(g) {
      FrontRecord(b);
      assert g in Recorded(b) && g !in Recorded(a);
    } else {
      TwoMembers(fs, f, g);
      SecondRecord(b);
      assert g in Recorded(b) && g !in Recorded(a);
    }
  }
  lemma TwoMembers(fs: seq<Future>, f: Future, g: Future)
    requires f in fs && g in fs && f != g
    ensures |fs| > 1
  {
  }

  /**
    What a context records is the same for every order of completion exactly when no
    future asks for a switch or all futures are alike: the futures after the first switch
    request are dropped.
   */
  lemma RecordedOrder(fs: seq<Future>)
    ensures SameRecord(fs) <==> NoSwitch(fs) || forall f, g :: f in fs && g in fs ==> f == g
  {
    if NoSwitch(fs) {
      forall gs | multiset(gs) == multiset(fs) ensures Recorded(gs) == Recorded(fs) {
        SameMembers(fs, gs);
        TakenAll(fs);
        TakenAll(gs);
      }
    } else if forall f, g :: f in fs && g in fs ==> f == g {
      forall gs | multiset(gs) == multiset(fs) ensures Recorded(gs) == Recorded(fs) {
        AllAlike(fs, gs);
      }
    } else {
      var s :| s in fs && IsSwitch(s);
      var x :| x in fs && x != s;
      Separates(fs, s, x);
    }
  }

  lemma AllAlike(fs: seq<Future>, gs: seq<Future>)
    requires !NoSwitch(fs) && (forall f, g :: f in fs && g in fs ==> f == g) && multiset(gs) == multiset(fs)
    ensures Recorded(gs) == Recorded(fs)
  {
    SameMembers(fs, gs);
    var s :| s in fs && IsSwitch(s);
    assert |multiset(fs)| == |fs| && |multiset(gs)| == |gs|;
    assert fs[0] in fs && gs[0] in gs;
    FrontRecord(fs);
    FrontRecord(gs);
  }

  /**
    The errors recorded are the same for every order exactly when no future asks for a
    switch, or only switch requests are erroneous and an erroneous one is the only one.
   */
  lemma RecordedErrorsOrder(fs: seq<Future>)
    ensures SameErrors(fs) <==>
      NoSwitch(fs) || forall f, g :: f in fs && g in fs && IsSwitch(f) && (IsSwitch(g) || IsError(g)) ==>
                        OneError(f) == OneError(g)
  {
    if NoSwitch(fs) {
      forall gs | multiset(gs) == multiset(fs) ensures RecordedErrors(gs) == RecordedErrors(fs) {
        SameMembers(fs, gs);
        TakenAll(fs);
        TakenAll(gs);
        ErrorsOrder(fs, gs);
      }
    } else if f, g :| f in fs && g in fs && IsSwitch(f) && (IsSwitch(g) || IsError(g)) && OneError(f) != OneError(g) {
      Separates(fs, f, g);
    } else {
      var s :| s in fs && IsSwitch(s);
      forall gs | multiset(gs) == multiset(fs) ensures RecordedErrors(gs) == RecordedErrors(fs) {
        SameMembers(fs, gs);
        OnlySwitchErrs(fs, s);
        OnlySwitchErrs(gs, s);
      }
    }
  }

  lemma SameOne(x: Future, s: Future)
    requires IsError(x) && OneError(x) == OneError(s)
    ensures x == s
  {
    assert x in OneError(x);
  }

  lemma OnlySwitchErrs(fs: seq<Future>, s: Future)
    requires s in fs && IsSwitch(s)
    requires forall g :: g in fs && (IsSwitch(g) || IsError(g)) ==> OneError(g) == OneError(s)
    ensures RecordedErrors(fs) == OneError(s)
  {
    SwitchTaken(fs);
    var n := Taken(fs);
    var front, f := fs[..n - 1], fs[n - 1];
    assert fs[..n] == front + [f] && (front + [f])[..n - 1] == front;
    assert forall x :: x in front ==> x in fs && !IsSwitch(x);
    forall x | x in front && IsError(x) ensures x == s { SameOne(x, s); }
    ErrorFree(front);
    assert f in fs;
  }

  /** A result and a switch request: the result is recorded or dropped, depending on the order. */
  lemma DroppedResult()
    ensures Recorded([Returned(false, 0), RaisedSwitch(false, 2)])
         == multiset{Returned(false, 0), RaisedSwitch(false, 2)}
    ensures Recorded([RaisedSwitch(false, 2), Returned(false, 0)]) == multiset{RaisedSwitch(false, 2)}
  {
    var a, b := Returned(false, 0), RaisedSwitch(false, 2);
    FrontRecord([b, a]);
    assert [a, b][1..] == [b];
    assert Taken([b]) == 1 && Taken([a, b]) == 2 && [a, b][..2] == [a, b];
  }
}
