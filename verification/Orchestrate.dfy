/** The verification cycle as a resumable state machine: stages, tickets for agents, and
    the rules that stop it. Gate results and agents' outcomes are inputs. */
module Orchestrate {
  import opened Wrappers

  datatype Stage = Signoff | Triage | RedTeam | Close | Done | Halted

  datatype Kind = TriageJob(seed: nat) | RedTeamJob

  datatype Status = Dispatched | Accepted | Rejected

  datatype Ticket = Ticket(id: nat, kind: Kind, status: Status, survivors: bool)

  /** What signoff reports: the verdict, the seeds with a failure record, and whether a
      gate outside the random ones failed too. */
  datatype Report = Report(passed: bool, seeds: seq<nat>, otherFailed: bool)

  /** What completing a ticket finds: the agent's output passes its gates and the ledger
      takes it, and a red-team candidate survived with a witness. */
  datatype Outcome = Outcome(ok: bool, survivors: bool)

  datatype State = State(stage: Stage, budget: int, queue: seq<Kind>, tickets: seq<Ticket>,
                         waitingOn: Option<nat>, signoff: Option<bool>, pendingHalt: bool, records: nat)

  function Start(maxTickets: int): State {
    State(Signoff, maxTickets, [], [], None, None, false, 0)
  }

  function AtStage(s: State, stage: Stage): State {
    State(stage, s.budget, s.queue, s.tickets, s.waitingOn, s.signoff, s.pendingHalt, s.records)
  }

  /** Stop for a human, and write the cycle's record. */
  function Halt(s: State): State {
    State(Halted, s.budget, s.queue, s.tickets, s.waitingOn, s.signoff, s.pendingHalt, s.records + 1)
  }

  function AfterClean(redTeam: bool): Stage {
    if redTeam then RedTeam else Close
  }

  function Jobs(seeds: seq<nat>): (jobs: seq<Kind>)
    ensures |jobs| == |seeds| && forall k :: 0 <= k < |jobs| ==> jobs[k].TriageJob?
  {
    seq(|seeds|, k requires 0 <= k < |seeds| => TriageJob(seeds[k]))
  }

  function StageSignoff(s: State, redTeam: bool, r: Report): State {
    var seen := State(s.stage, s.budget, s.queue, s.tickets, s.waitingOn, Some(r.passed), s.pendingHalt, s.records);
    if r.passed then AtStage(seen, AfterClean(redTeam))
    else if r.seeds == [] then Halt(seen)
    else State(Triage, s.budget, s.queue + Jobs(r.seeds), s.tickets, s.waitingOn, Some(false),
               s.pendingHalt || r.otherFailed, s.records)
  }

  function NextTicket(s: State): State
    requires s.queue != []
  {
    if s.budget <= 0 then Halt(s)
    else
      var t := Ticket(|s.tickets| + 1, s.queue[0], Dispatched, false);
      State(s.stage, s.budget - 1, s.queue[1..], s.tickets + [t], Some(t.id), s.signoff, s.pendingHalt, s.records)
  }

  predicate Running(s: State) {
    s.stage != Halted && s.stage != Done && s.waitingOn.None?
  }

  predicate HasRedTeam(s: State) {
    exists k :: 0 <= k < |s.tickets| && s.tickets[k].kind.RedTeamJob?
  }

  /** One turn of the stepping loop. */
  function Turn(s: State, redTeam: bool, r: Report): State {
    match s.stage
    case Signoff => StageSignoff(s, redTeam, r)
    case Triage =>
      if s.queue != [] then NextTicket(s)
      else if s.pendingHalt then Halt(s)
      else AtStage(s, AfterClean(redTeam))
    case RedTeam =>
      if !HasRedTeam(s) then
        NextTicket(State(s.stage, s.budget, s.queue + [RedTeamJob], s.tickets, s.waitingOn, s.signoff, s.pendingHalt,
          s.records))
      else AtStage(s, Close)
    case Close => State(Done, s.budget, s.queue, s.tickets, s.waitingOn, s.signoff, s.pendingHalt, s.records + 1)
    case _ => s
  }

  /** How many stages are still ahead: every turn that does not stop the loop moves on. */
  function Ahead(s: State): nat {
    match s.stage
    case Signoff => 4
    case Triage => 3
    case RedTeam => 2
    case Close => 1
    case _ => 0
  }

  lemma TurnMovesOn(s: State, redTeam: bool, r: Report)
    requires Running(s)
    ensures Running(Turn(s, redTeam, r)) ==> Ahead(Turn(s, redTeam, r)) < Ahead(s)
  {
  }

  /** Advance until a ticket is needed or the cycle ends. */
  function Stepped(s: State, redTeam: bool, r: Report): State
    decreases if Running(s) then Ahead(s) + 1 else 0
  {
    if !Running(s) then s
    else
      TurnMovesOn(s, redTeam, r);
      Stepped(Turn(s, redTeam, r), redTeam, r)
  }

  /** The index of the first ticket with this id. */
  function Find(ts: seq<Ticket>, id: nat): (k: nat)
    ensures k <= |ts| && (k < |ts| ==> ts[k].id == id) && forall j :: 0 <= j < k ==> ts[j].id != id
  {
    if ts == [] || ts[0].id == id then 0 else 1 + Find(ts[1..], id)
  }

  function Finished(s: State, k: nat, o: Outcome): State
    requires k < |s.tickets|
  {
    var t := s.tickets[k];
    var closed := Ticket(t.id, t.kind, if o.ok then Accepted else Rejected, o.survivors && t.kind.RedTeamJob?);
    State(s.stage, s.budget, s.queue, s.tickets[k := closed], None, s.signoff, s.pendingHalt, s.records)
  }

  /** Gate a ticket's output, record it, and go on. An unknown or finished ticket is
      refused and changes nothing. */
  function Completed(s: State, redTeam: bool, r: Report, id: nat, o: Outcome): State {
    var k := Find(s.tickets, id);
    if k == |s.tickets| || s.tickets[k].status != Dispatched then s
    else
      var f := Finished(s, k, o);
      var t := f.tickets[k];
      Stepped(if t.status == Rejected || t.kind.TriageJob? || t.survivors then Halt(f) else f, redTeam, r)
  }

  // ------------------------------------------------------------ the cycle, in place

  /** The state dictionary the script keeps on disk. */
  class Cycle {
    const redTeam: bool
    var stage: Stage
    var budget: int
    var queue: seq<Kind>
    var tickets: seq<Ticket>
    var waitingOn: Option<nat>
    var signoff: Option<bool>
    var pendingHalt: bool
    var records: nat

    ghost function View(): State
      reads this
    {
      State(stage, budget, queue, tickets, waitingOn, signoff, pendingHalt, records)
    }

    constructor (redTeam: bool, maxTickets: int)
      ensures this.redTeam == redTeam && View() == Start(maxTickets)
    {
      this.redTeam := redTeam;
      stage, budget, queue, tickets := Signoff, maxTickets, [], [];
      waitingOn, signoff, pendingHalt, records := None, None, false, 0;
    }

    method HaltCycle()
      modifies this
      ensures View() == Halt(old(View()))
    {
      stage := Halted;
      CloseCycle();
    }

    method CloseCycle()
      modifies this`records
      ensures records == old(records) + 1
    {
      records := records + 1;
    }

    method RunSignoff(r: Report)
      modifies this
      ensures View() == StageSignoff(old(View()), redTeam, r)
    {
      signoff := Some(r.passed);
      if r.passed {
        stage := if redTeam then RedTeam else Close;
        return;
      }
      if r.seeds == [] {
        HaltCycle();
        return;
      }
      ghost var before := queue;
      for i := 0 to |r.seeds|
        invariant View() == State(old(stage), old(budget), before + Jobs(r.seeds[..i]), old(tickets), old(waitingOn),
                                  Some(false), old(pendingHalt), old(records))
      {
        assert r.seeds[..i + 1][..i] == r.seeds[..i];
        assert before + Jobs(r.seeds[..i + 1]) == before + Jobs(r.seeds[..i]) + [TriageJob(r.seeds[i])];
        queue := queue + [TriageJob(r.seeds[i])];
      }
      assert r.seeds[..|r.seeds|] == r.seeds;
      if r.otherFailed {
        pendingHalt := true;
      }
      stage := Triage;
    }

    method Dispatch()
      requires queue != []
      modifies this
      ensures View() == NextTicket(old(View()))
    {
      if budget <= 0 {
        HaltCycle();
        return;
      }
      var t := Ticket(|tickets| + 1, queue[0], Dispatched, false);
      queue := queue[1..];
      tickets := tickets + [t];
      budget := budget - 1;
      waitingOn := Some(t.id);
    }

    /** The stepping loop; it ends because every turn that does not stop it moves on. */
    method Step(r: Report)
      modifies this
      ensures View() == Stepped(old(View()), redTeam, r)
    {
      while stage != Halted && stage != Done && waitingOn.None?
        invariant Stepped(View(), redTeam, r) == Stepped(old(View()), redTeam, r)
        decreases if Running(View()) then Ahead(View()) + 1 else 0
      {
        ghost var s := View();
        TurnMovesOn(s, redTeam, r);
        match stage {
          case Signoff => RunSignoff(r);
          case Triage =>
            if queue != [] {
              Dispatch();
            } else if pendingHalt {
              HaltCycle();
            } else {
              stage := if redTeam then RedTeam else Close;
            }
          case RedTeam =>
            if !exists k :: 0 <= k < |tickets| && tickets[k].kind.RedTeamJob? {
              queue := queue + [RedTeamJob];
              Dispatch();
            } else {
              stage := Close;
            }
          case Close =>
            stage := Done;
            CloseCycle();
        }
        assert View() == Turn(s, redTeam, r);
      }
    }

    method Complete(r: Report, id: nat, o: Outcome) returns (known: bool)
      modifies this
      ensures View() == Completed(old(View()), redTeam, r, id, o)
      ensures !known ==> View() == old(View())
    {
      var k := Find(tickets, id);
      if k == |tickets| || tickets[k].status != Dispatched {
        return false;
      }
      var t := tickets[k];
      var closed := Ticket(t.id, t.kind, if o.ok then Accepted else Rejected, o.survivors && t.kind.RedTeamJob?);
      tickets := tickets[k := closed];
      waitingOn := None;
      if !o.ok {
        HaltCycle();
      } else if t.kind.TriageJob? {
        HaltCycle();
      } else if closed.survivors {
        HaltCycle();
      }
      Step(r);
      known := true;
    }
  }

  // ------------------------------------------------------------ every run

  /** One command of the script. */
  datatype Command = StepCommand(r: Report) | CompleteCommand(r: Report, id: nat, o: Outcome)

  function Obey(s: State, redTeam: bool, c: Command): State {
    match c
    case StepCommand(r) => Stepped(s, redTeam, r)
    case CompleteCommand(r, id, o) => Completed(s, redTeam, r, id, o)
  }

  function ObeyAll(s: State, redTeam: bool, cs: seq<Command>): State
    decreases |cs|
  {
    if cs == [] then s else ObeyAll(Obey(s, redTeam, cs[0]), redTeam, cs[1..])
  }

  /** What holds between any two turns of a cycle. */
  predicate Safe(s: State, redTeam: bool, budget: int) {
    && s.budget + |s.tickets| == budget
    && |s.tickets| <= 1
    && (s.tickets != [] ==> s.tickets[0].id == 1)
    && (s.waitingOn.Some? <==> s.tickets != [] && s.tickets[0].status == Dispatched)
    && (s.waitingOn.Some? ==> s.waitingOn.value == 1 && (s.stage == Triage || s.stage == RedTeam))
    && s.records == (if s.stage == Halted || s.stage == Done then 1 else 0)
    && (s.tickets != [] && s.tickets[0].kind.RedTeamJob? ==> redTeam && s.signoff == Some(true))
    && (match s.stage
        case Signoff => s.tickets == [] && s.queue == [] && s.signoff.None?
        case Triage => s.signoff == Some(false)
                       && (s.tickets == [] ==> s.queue != [])
                       && (s.tickets != [] ==> s.tickets[0].status == Dispatched && s.tickets[0].kind.TriageJob?)
                       && (forall k :: 0 <= k < |s.queue| ==> s.queue[k].TriageJob?)
        case RedTeam => redTeam && s.signoff == Some(true) && s.queue == []
                        && (s.tickets != [] ==>
                              s.tickets[0].kind.RedTeamJob? && s.tickets[0].status != Rejected
                                && !s.tickets[0].survivors)
        case Close => Clean(s, redTeam)
        case Done => Clean(s, redTeam)
        case Halted => true)
  }

  /** A cycle that may close: signoff passed, and the red team, if it is on, was heard
      and found nothing. */
  predicate Clean(s: State, redTeam: bool) {
    && s.signoff == Some(true)
    && if redTeam then
         |s.tickets| == 1 && s.tickets[0].kind.RedTeamJob? && s.tickets[0].status == Accepted && !s.tickets[0].survivors
       else s.tickets == []
  }

  lemma TurnSafe(s: State, redTeam: bool, budget: int, r: Report)
    requires Safe(s, redTeam, budget) && Running(s)
    ensures Safe(Turn(s, redTeam, r), redTeam, budget)
  {
    if s.stage == RedTeam {
      assert HasRedTeam(s) <==> s.tickets != [] by {
        if s.tickets != [] {
          assert s.tickets[0].kind.RedTeamJob?;
        }
      }
    }
  }

  lemma {:induction false} SteppedSafe(s: State, redTeam: bool, budget: int, r: Report)
    requires Safe(s, redTeam, budget)
    ensures Safe(Stepped(s, redTeam, r), redTeam, budget) && !Running(Stepped(s, redTeam, r))
    decreases if Running(s) then Ahead(s) + 1 else 0
  {
    if Running(s) {
      TurnSafe(s, redTeam, budget, r);
      TurnMovesOn(s, redTeam, r);
      SteppedSafe(Turn(s, redTeam, r), redTeam, budget, r);
    }
  }

  lemma CompletedSafe(s: State, redTeam: bool, budget: int, r: Report, id: nat, o: Outcome)
    requires Safe(s, redTeam, budget)
    ensures Safe(Completed(s, redTeam, r, id, o), redTeam, budget)
  {
    var k := Find(s.tickets, id);
    if k < |s.tickets| && s.tickets[k].status == Dispatched {
      var f := Finished(s, k, o);
      var t := f.tickets[k];
      var next := if t.status == Rejected || t.kind.TriageJob? || t.survivors then Halt(f) else f;
      assert Safe(next, redTeam, budget);
      SteppedSafe(next, redTeam, budget, r);
    }
  }

  /** Over every sequence of commands, whatever the reports and outcomes: tickets and
      budget add up, at most one ticket is ever issued, the cycle waits exactly on the
      dispatched one, a red-team ticket exists only after a clean signoff, exactly one
      record is written when the cycle ends, and it closes only if it is clean. */
  lemma {:induction false} EveryCycleSafe(s: State, redTeam: bool, budget: int, cs: seq<Command>)
    requires Safe(s, redTeam, budget)
    ensures Safe(ObeyAll(s, redTeam, cs), redTeam, budget)
    decreases |cs|
  {
    if cs != [] {
      match cs[0] {
        case StepCommand(r) => SteppedSafe(s, redTeam, budget, r);
        case CompleteCommand(r, id, o) => CompletedSafe(s, redTeam, budget, r, id, o);
      }
      EveryCycleSafe(Obey(s, redTeam, cs[0]), redTeam, budget, cs[1..]);
    }
  }

  /** A cycle that has ended stays as it is under every further command. */
  lemma {:induction false} EndIsFinal(s: State, redTeam: bool, budget: int, cs: seq<Command>)
    requires Safe(s, redTeam, budget) && (s.stage == Halted || s.stage == Done)
    ensures ObeyAll(s, redTeam, cs) == s
    decreases |cs|
  {
    if cs != [] {
      assert Obey(s, redTeam, cs[0]) == s;
      EndIsFinal(s, redTeam, budget, cs[1..]);
    }
  }

  lemma StartSafe(redTeam: bool, maxTickets: int)
    ensures Safe(Start(maxTickets), redTeam, maxTickets)
  {
  }

  /** A failing signoff with failing seeds never gets past its first triage ticket: in
      every run the triage stage is left only by halting. */
  lemma TriageAlwaysHalts(s: State, redTeam: bool, budget: int, c: Command)
    requires Safe(s, redTeam, budget) && s.stage == Triage
    ensures Obey(s, redTeam, c).stage == Triage || Obey(s, redTeam, c).stage == Halted
  {
    match c
    case StepCommand(r) =>
      if Running(s) {
        var t := Turn(s, redTeam, r);
        assert !Running(t);
        assert Stepped(t, redTeam, r) == t;
      }
    case CompleteCommand(r, id, o) =>
      var k := Find(s.tickets, id);
      if k < |s.tickets| && s.tickets[k].status == Dispatched {
        var h := Halt(Finished(s, k, o));
        assert Stepped(h, redTeam, r) == h;
      }
  }

  // ------------------------------------------------------------ one ticket per failing seed

  /** The jobs that got a ticket, in the order of the tickets. */
  function Ticketed(s: State): (jobs: seq<Kind>)
    ensures |jobs| == |s.tickets|
  {
    seq(|s.tickets|, k requires 0 <= k < |s.tickets| => s.tickets[k].kind)
  }

  /** What the header promises: the tickets are those of the failing seeds. */
  predicate TicketPerSeed(s: State, seeds: seq<nat>) {
    Ticketed(s) == Jobs(seeds)
  }

  predicate SeedHeard(s: State, seed: nat) {
    TriageJob(seed) in Ticketed(s)
  }

  /** The triage stage after the one ticket it ever issues, or halted. */
  predicate OneTicket(s: State, job: Kind) {
    && |s.tickets| == 1 && s.tickets[0].kind == job && s.tickets[0].id == 1
    && (s.stage == Halted || (s.stage == Triage && s.waitingOn.Some?))
  }

  lemma FirstTicket(redTeam: bool, budget: int, r: Report)
    requires !r.passed && r.seeds != []
    ensures var s := Stepped(Start(budget), redTeam, r);
            if budget > 0 then OneTicket(s, TriageJob(r.seeds[0])) else s.tickets == [] && s.stage == Halted
  {
    var triage := Turn(Start(budget), redTeam, r);
    var first := Turn(triage, redTeam, r);
    assert Stepped(first, redTeam, r) == first;
    assert Stepped(triage, redTeam, r) == first;
  }

  lemma {:induction false} OneTicketStays(s: State, redTeam: bool, cs: seq<Command>, job: Kind)
    requires OneTicket(s, job) && job.TriageJob?
    ensures OneTicket(ObeyAll(s, redTeam, cs), job)
    decreases |cs|
  {
    if cs != [] {
      if cs[0].CompleteCommand? && s.tickets[0].status == Dispatched && cs[0].id == 1 {
        var h := Halt(Finished(s, 0, cs[0].o));
        assert Stepped(h, redTeam, cs[0].r) == h;
      }
      OneTicketStays(Obey(s, redTeam, cs[0]), redTeam, cs[1..], job);
    }
  }

  /** Exactly when the header's promise holds. A failing signoff with failing seeds has
      tickets for just the first of them, in every cycle that goes on by any steps and
      completions: so there is one per failing seed if and only if one seed failed (and the
      budget allows a ticket), and of different failing seeds the others are never heard. */
  lemma TicketsExactly(redTeam: bool, budget: int, r: Report, cs: seq<Command>)
    requires !r.passed && r.seeds != []
    ensures var s := ObeyAll(Start(budget), redTeam, [StepCommand(r)] + cs);
            && Ticketed(s) == (if budget > 0 then [TriageJob(r.seeds[0])] else [])
            && (TicketPerSeed(s, r.seeds) <==> budget > 0 && |r.seeds| == 1)
            && forall k :: 0 <= k < |r.seeds| ==> (SeedHeard(s, r.seeds[k]) <==> budget > 0 && r.seeds[k] == r.seeds[0])
  {
    FirstTicket(redTeam, budget, r);
    var all, first := [StepCommand(r)] + cs, Stepped(Start(budget), redTeam, r);
    assert all[1..] == cs;
    assert ObeyAll(Start(budget), redTeam, all) == ObeyAll(first, redTeam, cs);
    if budget > 0 {
      OneTicketStays(first, redTeam, cs, TriageJob(r.seeds[0]));
    } else {
      StartSafe(redTeam, budget);
      SteppedSafe(Start(budget), redTeam, budget, r);
      EndIsFinal(first, redTeam, budget, cs);
    }
    hide ObeyAll, Stepped;
    if |r.seeds| == 1 {
      assert Jobs(r.seeds) == [TriageJob(r.seeds[0])];
    }
  }

  /** Two seeds fail: the second never gets a ticket, whatever is stepped and completed. */
  lemma SecondSeedNeverHeard(redTeam: bool, budget: int, cs: seq<Command>)
    ensures var r := Report(false, [1, 2], false);
            !SeedHeard(ObeyAll(Start(budget), redTeam, [StepCommand(r)] + cs), 2)
  {
    var r := Report(false, [1, 2], false);
    TicketsExactly(redTeam, budget, r, cs);
    assert r.seeds[1] == 2;
  }

  // ------------------------------------------------------------ how a cycle ends

  /** What the agent of ticket 1 comes back with: the first completion of it. */
  function Answer(cs: seq<Command>): Option<Outcome> {
    if cs == [] then None
    else if cs[0].CompleteCommand? && cs[0].id == 1 then Some(cs[0].o)
    else Answer(cs[1..])
  }

  /** Where a cycle stands once signoff has reported and ticket 1, if there is one, has had
      this answer. */
  function Standing(redTeam: bool, budget: int, r: Report, answer: Option<Outcome>): (s: State)
    ensures s.signoff == Some(r.passed)
  {
    var wanted := if r.passed then (if redTeam then [RedTeamJob] else []) else Jobs(r.seeds);
    var pending := !r.passed && r.seeds != [] && r.otherFailed;
    if wanted == [] then
      State(if r.passed then Done else Halted, budget, [], [], None, Some(r.passed), pending, 1)
    else if budget <= 0 then
      State(Halted, budget, wanted, [], None, Some(r.passed), pending, 1)
    else if answer.None? then
      State(if r.passed then RedTeam else Triage, budget - 1, wanted[1..], [Ticket(1, wanted[0], Dispatched, false)],
            Some(1), Some(r.passed), pending, 0)
    else
      var o := answer.value;
      var t := Ticket(1, wanted[0], if o.ok then Accepted else Rejected, o.survivors && r.passed);
      State(if r.passed && o.ok && !o.survivors then Done else Halted, budget - 1, wanted[1..], [t],
            None, Some(r.passed), pending, 1)
  }

  lemma FirstStanding(redTeam: bool, budget: int, r: Report)
    ensures Stepped(Start(budget), redTeam, r) == Standing(redTeam, budget, r, None)
  {
    var s1 := Turn(Start(budget), redTeam, r);
    var s2 := Turn(s1, redTeam, r);
    assert Stepped(Start(budget), redTeam, r) == Stepped(s1, redTeam, r);
    if Running(s1) {
      assert Stepped(s1, redTeam, r) == Stepped(s2, redTeam, r);
      assert !Running(s2);
    }
  }

  /** A waiting cycle goes on by the completion of its ticket and by nothing else. */
  lemma NextStanding(redTeam: bool, budget: int, r: Report, answer: Option<Outcome>, c: Command)
    ensures Obey(Standing(redTeam, budget, r, answer), redTeam, c) ==
            Standing(redTeam, budget, r, if answer.Some? then answer else Answer([c]))
  {
    var s := Standing(redTeam, budget, r, answer);
    assert [c][1..] == [];
    if c.CompleteCommand? && s.waitingOn.Some? && c.id == 1 {
      var f := Finished(s, 0, c.o);
      if f.tickets[0].status == Rejected || f.tickets[0].kind.TriageJob? || f.tickets[0].survivors {
        assert Stepped(Halt(f), redTeam, c.r) == Halt(f);
      } else {
        Closes(f, redTeam, c.r);
      }
    }
  }

  lemma Closes(f: State, redTeam: bool, r: Report)
    requires f.stage == RedTeam && f.waitingOn.None? && |f.tickets| == 1 && f.tickets[0].kind.RedTeamJob?
    ensures Stepped(f, redTeam, r) ==
            State(Done, f.budget, f.queue, f.tickets, None, f.signoff, f.pendingHalt, f.records + 1)
  {
    assert HasRedTeam(f);
    var g := Turn(f, redTeam, r);
    var h := Turn(g, redTeam, r);
    assert Stepped(g, redTeam, r) == Stepped(h, redTeam, r) == h;
  }

  lemma {:induction false} StandingStays(redTeam: bool, budget: int, r: Report, answer: Option<Outcome>,
                                         cs: seq<Command>)
    ensures ObeyAll(Standing(redTeam, budget, r, answer), redTeam, cs) ==
            Standing(redTeam, budget, r, if answer.Some? then answer else Answer(cs))
    decreases |cs|
  {
    if cs != [] {
      NextStanding(redTeam, budget, r, answer, cs[0]);
      hide Obey, Standing;
      assert [cs[0]][1..] == [];
      StandingStays(redTeam, budget, r, if answer.Some? then answer else Answer([cs[0]]), cs[1..]);
    }
  }

  /** The whole state after any cycle that begins with a step and goes on by any steps and
      completions: it depends on the first report and on the first completion of ticket 1
      alone. */
  lemma CycleOutcome(redTeam: bool, budget: int, r: Report, cs: seq<Command>)
    ensures ObeyAll(Start(budget), redTeam, [StepCommand(r)] + cs) == Standing(redTeam, budget, r, Answer(cs))
  {
    hide Standing, Stepped;
    var all := [StepCommand(r)] + cs;
    assert all[1..] == cs && all[0] == StepCommand(r);
    FirstStanding(redTeam, budget, r);
    StandingStays(redTeam, budget, r, None, cs);
  }

  /** So a cycle closes exactly if signoff passed and, with the red team on, the budget
      allowed its ticket and it came back accepted with nothing found; and it waits exactly
      if it has a ticket without an answer. It has one record unless it waits. */
  lemma DoneExactly(redTeam: bool, budget: int, r: Report, cs: seq<Command>)
    ensures var s := ObeyAll(Start(budget), redTeam, [StepCommand(r)] + cs);
            && (s.stage == Done <==>
                  r.passed && (redTeam ==> budget > 0 && Answer(cs).Some? && Answer(cs).value == Outcome(true, false)))
            && (s.waitingOn.Some? <==>
                  budget > 0 && Answer(cs).None? && (if r.passed then redTeam else r.seeds != []))
            && (s.stage == Halted <==> s.stage != Done && s.waitingOn.None?)
            && s.records == (if s.waitingOn.Some? then 0 else 1)
            && (r.passed && redTeam && budget > 0 ==> Ticketed(s) == [RedTeamJob])
            && (r.passed && !redTeam ==> s.tickets == [])
  {
    CycleOutcome(redTeam, budget, r, cs);
    hide ObeyAll;
  }
}
