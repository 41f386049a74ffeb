/** The database lock taken around a branch: foldout processes and clients interleave. */
module Lock {
  import opened Types

  type Client = nat
  type Pid = nat

  /** Where a process is in lock_source_database. */
  datatype Pc =
    | Outside       // not in the context manager
    | Checking      // connections are refused; about to list the backends
    | Terminating   // backends were found and force is on
    | Waiting       // polling until no backend is left
    | Body          // the caller's block runs
    | Restoring     // the finally block, after success or any exception

  datatype Process = Process(pc: Pc, force: bool)

  datatype State = State(allow: bool, backends: set<Client>, doomed: set<Client>, procs: map<Pid, Process>)

  datatype Step =
    | Connect(c: Client)
    | Disconnect(c: Client)
    | Die(c: Client)           // a terminated backend finally exits
    | Refuse(p: Pid)           // ALTER DATABASE ... ALLOW_CONNECTIONS false
    | Check(p: Pid)
    | Terminate(p: Pid)
    | Poll(p: Pid, timedOut: bool)
    | Leave(p: Pid)            // the block ends, or anything after locking raises
    | Restore(p: Pid)          // ALTER DATABASE ... ALLOW_CONNECTIONS true

  function At(s: State, p: Pid, pc: Pc): State
    requires p in s.procs
  {
    s.(procs := s.procs[p := s.procs[p].(pc := pc)])
  }

  predicate Is(s: State, p: Pid, pc: Pc) {
    p in s.procs && s.procs[p].pc == pc
  }

  function Do(s: State, e: Step): Option<State> {
    match e
    case Connect(c) =>
      if s.allow && c !in s.backends then Some(s.(backends := s.backends + {c})) else None
    case Disconnect(c) =>
      if c in s.backends then Some(s.(backends := s.backends - {c}, doomed := s.doomed - {c})) else None
    case Die(c) =>
      if c in s.backends && c in s.doomed
      then Some(s.(backends := s.backends - {c}, doomed := s.doomed - {c})) else None
    case Refuse(p) =>
      if Is(s, p, Outside) then Some(At(s, p, Checking).(allow := false)) else None
    case Check(p) =>
      if !Is(s, p, Checking) then None
      else if s.backends == {} then Some(At(s, p, Body))
      else if !s.procs[p].force then Some(At(s, p, Restoring))
      else Some(At(s, p, Terminating))
    case Terminate(p) =>
      if Is(s, p, Terminating) then Some(At(s, p, Waiting).(doomed := s.doomed + s.backends)) else None
    case Poll(p, timedOut) =>
      if !Is(s, p, Waiting) then None
      else if s.backends == {} then Some(At(s, p, Body))
      else if timedOut then Some(At(s, p, Restoring))
      else Some(s)
    case Leave(p) =>
      if p in s.procs && s.procs[p].pc !in {Outside, Restoring} then Some(At(s, p, Restoring)) else None
    case Restore(p) =>
      if Is(s, p, Restoring) then Some(At(s, p, Outside).(allow := true)) else None
  }

  function Run(s: State, es: seq<Step>): Option<State> {
    if es == [] then Some(s)
    else match Run(s, es[..|es| - 1])
      case None => None
      case Some(t) => Do(t, es[|es| - 1])
  }

  /** An unlocked database with any backends attached; nobody was told to exit. */
  ghost predicate Init(s: State) {
    s.allow && s.doomed == {} && forall p :: p in s.procs ==> s.procs[p].pc == Outside
  }

  ghost predicate AtMostOneInside(s: State) {
    forall p, q :: p in s.procs && q in s.procs && s.procs[p].pc != Outside && s.procs[q].pc != Outside ==> p == q
  }

  /** No two processes ever hold the lock at once. */
  ghost predicate NoOverlap(s: State, es: seq<Step>) {
    forall i :: 0 <= i <= |es| ==>
      match Run(s, es[..i]) case None => true case Some(t) => AtMostOneInside(t)
  }

  ghost predicate AllOutside(s: State) {
    forall p :: p in s.procs ==> s.procs[p].pc == Outside
  }

  ghost predicate Safe(s: State) {
    && (AllOutside(s) <==> s.allow)
    && (forall p :: p in s.procs && s.procs[p].pc == Body ==> s.backends == {})
  }

  lemma StepIsSafe(s: State, e: Step)
    requires Safe(s) && AtMostOneInside(s) && Do(s, e).Some? && AtMostOneInside(Do(s, e).value)
    ensures Safe(Do(s, e).value)
  {
    var t := Do(s, e).value;
    match e
    case Refuse(p) => assert t.procs[p].pc == Checking;
    case Check(p) => assert t.procs[p].pc != Outside;
    case Terminate(p) => assert t.procs[p].pc != Outside;
    case Poll(p, _) => assert t.procs[p].pc != Outside;
    case Leave(p) => assert t.procs[p].pc != Outside;
    case Restore(p) =>
    case _ =>
  }

  /** While no two processes hold the lock at once: the locked body runs only with no
      backend attached and none able to attach, and whenever nobody is inside, whichever
      way they left, connections are allowed again. */
  lemma {:induction false} LockIsSafe(s: State, es: seq<Step>)
    requires Init(s) && Run(s, es).Some? && NoOverlap(s, es)
    ensures Safe(Run(s, es).value)
    ensures forall p :: Is(Run(s, es).value, p, Body) ==> Run(s, es).value.backends == {} && !Run(s, es).value.allow
  {
    if es != [] {
      var front := es[..|es| - 1];
      assert forall i :: 0 <= i <= |front| ==> front[..i] == es[..i];
      assert NoOverlap(s, front) by {
        forall i | 0 <= i <= |front|
          ensures match Run(s, front[..i]) case None => true case Some(t) => AtMostOneInside(t)
        {
          assert front[..i] == es[..i];
        }
      }
      LockIsSafe(s, front);
      assert es[..|es|] == es;
      assert AtMostOneInside(Run(s, es[..|es| - 1]).value);
      StepIsSafe(Run(s, front).value, es[|es| - 1]);
    }
  }

  /** A single process never overlaps with itself. */
  lemma OneProcessNeverOverlaps(s: State, es: seq<Step>)
    requires |s.procs| <= 1
    ensures NoOverlap(s, es)
  {
    forall i | 0 <= i <= |es|
      ensures match Run(s, es[..i]) case None => true case Some(t) => AtMostOneInside(t)
    {
      ProcessesStay(s, es[..i]);
      if Run(s, es[..i]).Some? {
        var t := Run(s, es[..i]).value;
        forall p, q | p in t.procs && q in t.procs ensures p == q {
          OnlyOne(s.procs.Keys, p, q);
        }
      }
    }
  }

  lemma OnlyOne(ps: set<Pid>, p: Pid, q: Pid)
    requires |ps| <= 1 && p in ps && q in ps
    ensures p == q
  {
    var rest := ps - {p};
    assert |rest| == |ps| - 1;
    assert q in rest || q == p;
  }

  lemma {:induction false} ProcessesStay(s: State, es: seq<Step>)
    ensures match Run(s, es) case None => true case Some(t) => t.procs.Keys == s.procs.Keys
  {
    if es != [] {
      ProcessesStay(s, es[..|es| - 1]);
    }
  }

  /** Without force, in any number of processes, no backend is ever terminated. */
  lemma {:induction false} NoForceNoTermination(s: State, es: seq<Step>)
    requires Init(s) && Run(s, es).Some?
    requires forall p :: p in s.procs ==> !s.procs[p].force
    ensures Run(s, es).value.doomed == {}
    ensures forall p :: p in Run(s, es).value.procs ==>
      !Run(s, es).value.procs[p].force && Run(s, es).value.procs[p].pc !in {Terminating, Waiting}
  {
    if es != [] {
      NoForceNoTermination(s, es[..|es| - 1]);
    }
  }

  /** The lock does not exclude other foldout processes: if one leaves while another is in
      its body, the next client attaches under that body. */
  lemma OverlapOpensTheBody(s: State, p: Pid, q: Pid, c: Client)
    requires p != q && Is(s, p, Body) && Is(s, q, Restoring) && c !in s.backends
    ensures match Run(s, [Restore(q), Connect(c)])
      case None => false
      case Some(t) => Is(t, p, Body) && t.allow && c in t.backends
  {
    RunSnoc(s, [], Restore(q));
    RunSnoc(s, [Restore(q)], Connect(c));
    assert [] + [Restore(q)] == [Restore(q)];
    assert [Restore(q)] + [Connect(c)] == [Restore(q), Connect(c)];
  }

  lemma RunSnoc(s: State, front: seq<Step>, e: Step)
    ensures Run(s, front + [e]) == match Run(s, front) case None => None case Some(t) => Do(t, e)
  {
    assert (front + [e])[..|front|] == front;
  }

  /** Clients may leave one by one. */
  lemma {:induction false} Drain(s: State, rest: set<Client>) returns (es: seq<Step>)
    requires rest <= s.backends
    ensures Run(s, es) == Some(s.(backends := rest, doomed := s.doomed - (s.backends - rest)))
    decreases s.backends - rest
  {
    if rest == s.backends {
      es := [];
      assert s.backends - rest == {} && s.doomed - {} == s.doomed;
    } else {
      var c :| c in s.backends && c !in rest;
      var front := Drain(s, rest + {c});
      RunSnoc(s, front, Disconnect(c));
      assert rest + {c} - {c} == rest;
      assert s.doomed - (s.backends - (rest + {c})) - {c} == s.doomed - (s.backends - rest);
      es := front + [Disconnect(c)];
    }
  }

  lemma {:induction false} RunConcat(s: State, a: seq<Step>, b: seq<Step>)
    ensures Run(s, a + b) == match Run(s, a) case None => None case Some(t) => Run(t, b)
  {
    hide Do;
    if b == [] {
      assert a + b == a;
    } else {
      RunConcat(s, a, b[..|b| - 1]);
      assert (a + b)[..|a + b| - 1] == a + b[..|b| - 1];
    }
  }

  /** Terminated backends may exit one by one. */
  lemma {:induction false} DieOff(s: State, rest: set<Client>) returns (es: seq<Step>)
    requires rest <= s.backends <= s.doomed
    ensures Run(s, es) == Some(s.(backends := rest, doomed := s.doomed - (s.backends - rest)))
    ensures forall e :: e in es ==> e.Die?
    decreases s.backends - rest
  {
    if rest == s.backends {
      es := [];
      assert s.backends - rest == {} && s.doomed - {} == s.doomed;
    } else {
      var c :| c in s.backends && c !in rest;
      var front := DieOff(s, rest + {c});
      RunSnoc(s, front, Die(c));
      assert rest + {c} - {c} == rest;
      assert s.doomed - (s.backends - (rest + {c})) - {c} == s.doomed - (s.backends - rest);
      es := front + [Die(c)];
    }
  }

  /** The process moves by itself, or a backend that was told to exit does. */
  predicate OwnOrDie(e: Step, p: Pid) {
    e.Die? || e == Refuse(p) || e == Check(p) || e == Terminate(p) || (e.Poll? && e.p == p)
  }

  /** With force a process gets into its body whatever backends are attached, by its own steps
      and the exits of the backends it terminates. */
  lemma ForceReachesBody(s: State, p: Pid) returns (es: seq<Step>)
    requires Is(s, p, Outside) && s.procs[p].force
    ensures Run(s, es).Some? && Is(Run(s, es).value, p, Body) && Run(s, es).value.backends == {}
    ensures forall e :: e in es ==> OwnOrDie(e, p)
  {
    var s1 := At(s, p, Checking).(allow := false);
    RunSnoc(s, [], Refuse(p));
    assert [] + [Refuse(p)] == [Refuse(p)];
    RunSnoc(s, [Refuse(p)], Check(p));
    assert [Refuse(p)] + [Check(p)] == [Refuse(p), Check(p)];
    if s.backends == {} {
      es := [Refuse(p), Check(p)];
    } else {
      var s2 := At(s1, p, Terminating);
      var s3 := At(s2, p, Waiting).(doomed := s2.doomed + s2.backends);
      RunSnoc(s, [Refuse(p), Check(p)], Terminate(p));
      var front := [Refuse(p), Check(p)] + [Terminate(p)];
      assert Run(s, front) == Some(s3);
      var exits := DieOff(s3, {});
      RunConcat(s, front, exits);
      RunSnoc(s, front + exits, Poll(p, false));
      es := front + exits + [Poll(p, false)];
    }
  }

  /** Without it a process that finds backends attached gives up: any step it takes leads out. */
  lemma NoForceGivesUp(s: State, p: Pid, e: Step)
    requires Is(s, p, Checking) && !s.procs[p].force && s.backends != {}
    requires Do(s, e).Some? && (OwnOrDie(e, p) || e == Leave(p)) && !e.Die?
    ensures Is(Do(s, e).value, p, Restoring)
  {}

  /** The process moves by itself. */
  predicate Own(e: Step, p: Pid) {
    (OwnOrDie(e, p) && !e.Die?) || e == Leave(p) || e == Restore(p)
  }

  /** From wherever it is inside, by at most two steps of its own, a process gets out, and
      connections are allowed again. */
  lemma WayOut(s: State, p: Pid) returns (es: seq<Step>)
    requires p in s.procs && s.procs[p].pc != Outside
    ensures |es| <= 2 && forall e :: e in es ==> Own(e, p)
    ensures Run(s, es).Some? && Is(Run(s, es).value, p, Outside) && Run(s, es).value.allow
  {
    RunSnoc(s, [], Restore(p));
    assert [] + [Restore(p)] == [Restore(p)];
    if Is(s, p, Restoring) {
      es := [Restore(p)];
    } else {
      RunSnoc(s, [], Leave(p));
      assert [] + [Leave(p)] == [Leave(p)];
      RunSnoc(s, [Leave(p)], Restore(p));
      es := [Leave(p)] + [Restore(p)];
    }
  }

  /** A poll past the deadline gives up if a backend is left, and not otherwise. */
  lemma TimeoutGivesUpIff(s: State, p: Pid)
    requires Is(s, p, Waiting)
    ensures Do(s, Poll(p, true)).Some?
    ensures Is(Do(s, Poll(p, true)).value, p, Restoring) <==> s.backends != {}
    ensures Is(Do(s, Poll(p, true)).value, p, Body) <==> s.backends == {}
  {}

  ghost predicate Stage(t: State, p: Pid, q: Pid, a: Pc, b: Pc, allow: bool) {
    Is(t, p, a) && Is(t, q, b) && t.allow == allow && t.backends == {}
  }

  lemma StageStep(t: State, p: Pid, q: Pid, a: Pc, b: Pc, allow: bool, e: Step, a': Pc, b': Pc, allow': bool)
    requires p != q && Stage(t, p, q, a, b, allow)
    requires || (e == Refuse(p) && a == Outside && a' == Checking && b' == b && !allow')
      || (e == Check(p) && a == Checking && a' == Body && b' == b && allow' == allow)
      || (e == Refuse(q) && b == Outside && a' == a && b' == Checking && !allow')
      || (e == Leave(q) && b == Checking && a' == a && b' == Restoring && allow' == allow)
      || (e == Restore(q) && b == Restoring && a' == a && b' == Outside && allow')
    ensures Do(t, e).Some? && Stage(Do(t, e).value, p, q, a', b', allow')
  {}

  /** The body runs with no backend attached and none able to attach. */
  ghost predicate BodyAlone(t: State) {
    forall p :: Is(t, p, Body) ==> t.backends == {} && !t.allow
  }

  /** Any second process can spoil the lock: it arrives while the first is in its body,
      leaves, and on its way out allows connections again. */
  lemma SecondProcessSpoils(s: State, p: Pid, q: Pid) returns (es: seq<Step>)
    requires Init(s) && p in s.procs && q in s.procs && p != q
    ensures Run(s, es).Some? && !BodyAlone(Run(s, es).value)
  {
    hide Do;
    var e0 := Drain(s, {});
    var t0 := Run(s, e0).value;
    RunSnoc(s, e0, Refuse(p));
    StageStep(t0, p, q, Outside, Outside, true, Refuse(p), Checking, Outside, false);
    var e1 := e0 + [Refuse(p)];
    RunSnoc(s, e1, Check(p));
    StageStep(Run(s, e1).value, p, q, Checking, Outside, false, Check(p), Body, Outside, false);
    var e2 := e1 + [Check(p)];
    RunSnoc(s, e2, Refuse(q));
    StageStep(Run(s, e2).value, p, q, Body, Outside, false, Refuse(q), Body, Checking, false);
    var e3 := e2 + [Refuse(q)];
    RunSnoc(s, e3, Leave(q));
    StageStep(Run(s, e3).value, p, q, Body, Checking, false, Leave(q), Body, Restoring, false);
    var e4 := e3 + [Leave(q)];
    RunSnoc(s, e4, Restore(q));
    StageStep(Run(s, e4).value, p, q, Body, Restoring, false, Restore(q), Body, Outside, true);
    es := e4 + [Restore(q)];
  }

  lemma TwoOf(ps: set<Pid>) returns (p: Pid, q: Pid)
    requires |ps| > 1
    ensures p in ps && q in ps && p != q
  {
    p :| p in ps;
    assert |ps - {p}| == |ps| - 1;
    q :| q in ps - {p};
  }

  /** The lock protects its body in every run exactly when at most one process uses it. */
  lemma LockHoldsIff(s: State)
    requires Init(s)
    ensures (forall es :: Run(s, es).Some? ==> BodyAlone(Run(s, es).value)) <==> |s.procs| <= 1
  {
    if |s.procs| <= 1 {
      forall es | Run(s, es).Some? ensures BodyAlone(Run(s, es).value) {
        OneProcessNeverOverlaps(s, es);
        LockIsSafe(s, es);
      }
    } else {
      assert |s.procs.Keys| == |s.procs|;
      var p, q := TwoOf(s.procs.Keys);
      var es := SecondProcessSpoils(s, p, q);
    }
  }

  // ---------- the polling loop ----------

  /** One poll: the backends listed and the clock after listing. */
  datatype Sample = Sample(remaining: set<Client>, now: nat)

  datatype Outcome = Drained | TimedOut(left: set<Client>)

  /** Polls until the list is empty or the deadline has passed; an empty list wins over a
      passed deadline. `samples` is what the server answers, poll by poll. */
  method WaitForNoConnections(samples: seq<Sample>, start: nat, timeout: nat) returns (outcome: Outcome, polls: nat)
    requires exists i :: 0 <= i < |samples| && samples[i].now >= start + timeout
    ensures 1 <= polls <= |samples|
    ensures forall i :: 0 <= i < polls - 1 ==> samples[i].remaining != {} && samples[i].now < start + timeout
    ensures outcome == if samples[polls - 1].remaining == {} then Drained else TimedOut(samples[polls - 1].remaining)
    ensures outcome.TimedOut? ==> samples[polls - 1].now >= start + timeout
  {
    var deadline := start + timeout;
    polls := 0;
    while true
      invariant polls <= |samples|
      invariant forall i :: 0 <= i < polls ==> samples[i].remaining != {} && samples[i].now < deadline
      decreases |samples| - polls
    {
      var last :| 0 <= last < |samples| && samples[last].now >= deadline;
      var remaining := samples[polls].remaining;
      polls := polls + 1;
      if remaining == {} {
        return Drained, polls;
      }
      if samples[polls - 1].now >= deadline {
        return TimedOut(remaining), polls;
      }
    }
  }
}
