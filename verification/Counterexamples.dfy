/**
  Well-formed programs that do not run as they read, one for each way of being
  unfaithful. Every task succeeds.
 */
module Counterexamples {
  import opened Wrappers
  import opened Pointy
  import opened Programs
  import opened Verdicts
  import opened Semantics

  const Good: Oracle := (n: nat, event: string) => Succeeded

  function Task(name: string, next: Next): Program { Program(Atom(name, Once, NoCases), next) }
  function Choice(name: string, fail: string, success: string, next: Next): Program {
    Program(Atom(name, Once, Case(0, Pointer, Task(fail, Done), Case(1, Pointer, Task(success, Done), NoCases))), next)
  }

  lemma OneTask(name: string, s: Progress, r: Reading)
    requires !s.halted && r.going
    ensures Behaviour(Good, Task(name, Done), false, s) == Progress(s.trace + [[name]], true, false)
    ensures Meaning(Good, Task(name, Done), r) == Reading(r.trace + [[name]], true)
  {
    var p := Task(name, Done);
    assert GroupEnd(p) == p && GroupNames(p) == [name];
    NoChoice(p.atom, Succeeded);
  }

  /** `A(0 -> B, 1 -> C) -> D`: what follows a first task with branches is never run. */
  lemma FirstConditionalLosesRest()
    ensures var p := Choice("A", "B", "C", Then(Pointer, Task("D", Done)));
      && WellFormed(p) && !FaithfulProgram(p)
      && Behaviour(Good, p, true, Start).trace == [["A"], ["C"]]
      && Meaning(Good, p, Reading([], true)) == Reading([["A"], ["C"], ["D"]], true)
  {
    var p := Choice("A", "B", "C", Then(Pointer, Task("D", Done)));
    var c := Task("C", Done);
    assert WellFormedCases(p.atom.cases) && HasCase(p.atom.cases, 1);
    assert CaseBody(p.atom.cases, 1) == Some(c) && Chosen(p.atom, Succeeded) == Some(c);
    assert GroupEnd(p) == p && GroupNames(p) == ["A"];
    OneTask("C", Progress([["A"]], false, false), Reading([["A"]], true));
    OneTask("D", Progress([["A"], ["C"]], false, false), Reading([["A"], ["C"]], true));
  }

  /** `A || B`: the first task runs alone. */
  lemma FirstGroupRunsApart()
    ensures var p := Task("A", Then(Parallelism, Task("B", Done)));
      && WellFormed(p) && !FaithfulProgram(p)
      && Behaviour(Good, p, true, Start).trace == [["A"], ["B"]]
      && Meaning(Good, p, Reading([], true)) == Reading([["A", "B"]], true)
  {
    var b := Task("B", Done);
    var p := Task("A", Then(Parallelism, b));
    OneTask("B", Progress([["A"]], false, false), Reading([], true));
    assert GroupNames(b) == ["B"] && GroupNames(p) == ["A"] + GroupNames(b) == ["A", "B"];
    assert GroupEnd(p) == b;
    NoChoice(p.atom, Succeeded);
    NoChoice(b.atom, Succeeded);
  }

  /** `A || B(0 -> C, 1 -> D) -> E`, below another task. */
  lemma GroupBelow()
    ensures var g := Task("A", Then(Parallelism, Choice("B", "C", "D", Then(Pointer, Task("E", Done)))));
      && WellFormed(g) && !Faithful(g)
      && Behaviour(Good, g, false, Progress([["X"]], false, false)).trace == [["X"], ["A", "B"], ["D"]]
      && Meaning(Good, g, Reading([["X"]], true)) == Reading([["X"], ["A", "B"], ["D"], ["E"]], true)
  {
    var b := Choice("B", "C", "D", Then(Pointer, Task("E", Done)));
    var g := Task("A", Then(Parallelism, b));
    var d := Task("D", Done);
    assert WellFormedCases(b.atom.cases) && HasCase(b.atom.cases, 1);
    assert WellFormed(Task("E", Done)) && WellFormed(b);
    assert CaseBody(b.atom.cases, 1) == Some(d) && Chosen(b.atom, Succeeded) == Some(d);
    assert GroupEnd(b) == b && GroupNames(b) == ["B"];
    assert GroupNames(g) == ["A"] + GroupNames(b) == ["A", "B"] && GroupEnd(g) == b;
    var s1 := Progress([["X"]] + [["A", "B"]], false, false);
    assert s1.trace == [["X"], ["A", "B"]];
    OneTask("D", s1, Reading(s1.trace, true));
    assert Behaviour(Good, g, false, Progress([["X"]], false, false)) == Behaviour(Good, d, false, s1);
    var r2 := Reading(s1.trace + [["D"]], true);
    assert r2.trace == [["X"], ["A", "B"], ["D"]];
    OneTask("E", s1, r2);
    assert Meaning(Good, g, Reading([["X"]], true)) == Meaning(Good, Task("E", Done), r2);
  }

  /** `X -> A || B(0 -> C, 1 -> D) -> E`: the sink of a group is looked up at its first task. */
  lemma GroupLosesSink()
    ensures var g := Task("A", Then(Parallelism, Choice("B", "C", "D", Then(Pointer, Task("E", Done)))));
      var p := Task("X", Then(Pointer, g));
      && WellFormed(p) && !FaithfulProgram(p)
      && Behaviour(Good, p, true, Start).trace == [["X"], ["A", "B"], ["D"]]
      && Meaning(Good, p, Reading([], true)) == Reading([["X"], ["A", "B"], ["D"], ["E"]], true)
  {
    var g := Task("A", Then(Parallelism, Choice("B", "C", "D", Then(Pointer, Task("E", Done)))));
    var p := Task("X", Then(Pointer, g));
    GroupBelow();
    assert GroupEnd(p) == p && GroupNames(p) == ["X"];
    NoChoice(p.atom, Succeeded);
    assert [] + [["X"]] == [["X"]];
  }
}
