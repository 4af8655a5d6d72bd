/**
  Runs of a worker: one pass of its loop after the other (deps/relayer/relayer/strategies.go).
  Between two passes the chains go on, and applications on either side send new packets.
 */
module Passes {
  import opened Packets
  import opened Rounds

  /** What happens between the passes, and then the two phases of one pass. */
  datatype Pass = Pass(grow: seq<Step>, packets: Plan, acks: Plan)

  /** Idle blocks and new packets. */
  ghost predicate Growing(steps: seq<Step>) {
    forall i :: 0 <= i < |steps| ==> steps[i].action.Nothing? || steps[i].action.SendTo?
  }

  function Grown(n: Net, pass: Pass): (m: Net)
    requires n.src != [] && n.dst != []
    ensures m.src != [] && m.dst != [] && m.order == n.order
  {
    RunFrom(n, pass.grow)
  }

  /** The chains between the phases of a pass. */
  function Halfway(n: Net, pass: Pass): (m: Net)
    requires n.src != [] && n.dst != []
    ensures m.src != [] && m.dst != [] && m.order == n.order
  {
    After(Grown(n, pass), pass.packets)
  }

  function Done(n: Net, pass: Pass): (m: Net)
    requires n.src != [] && n.dst != []
    ensures m.src != [] && m.dst != [] && m.order == n.order
  {
    After(Halfway(n, pass), pass.acks)
  }

  /** A pass whose queries and providers answer. */
  ghost predicate IsPass(n: Net, pass: Pass)
    requires n.src != [] && n.dst != []
  {
    Growing(pass.grow) && PacketPlan(Grown(n, pass), pass.packets) && AckPlan(Halfway(n, pass), pass.acks)
  }

  /** The chains after a number of passes. */
  function Final(n: Net, passes: seq<Pass>): (m: Net)
    requires n.src != [] && n.dst != []
    ensures m.src != [] && m.dst != [] && m.order == n.order
    decreases |passes|
  {
    if passes == [] then n else Done(Final(n, passes[..|passes| - 1]), passes[|passes| - 1])
  }

  ghost predicate ArePasses(n: Net, passes: seq<Pass>)
    requires n.src != [] && n.dst != []
    decreases |passes|
  {
    passes == [] ||
    (ArePasses(n, passes[..|passes| - 1]) && IsPass(Final(n, passes[..|passes| - 1]), passes[|passes| - 1]))
  }

  // ---- What growing does -----------------------------------------------------------------

  /** New packets and time, nothing else. */
  ghost predicate Grew(e: End, e': End) {
    && e' == e.(time := e'.time, sent := e'.sent, commitments := e'.commitments)
    && e.time <= e'.time && e.sent <= e'.sent
    && forall s :: s in e'.commitments <==> s in e.commitments || |e.sent| < s <= |e'.sent|
  }

  lemma GrewTrans(a: End, b: End, c: End)
    requires Grew(a, b) && Grew(b, c)
    ensures Grew(a, c)
  {
  }

  lemma GrowOne(order: Order, chain: seq<End>, peer: seq<End>, delay: nat, a: Action)
    requires chain != [] && (a.Nothing? || a.SendTo?)
    ensures Grew(Last(chain), NextBlock(order, chain, peer, delay, a))
  {
  }

  lemma {:induction false} GrowKeeps(n: Net, steps: seq<Step>)
    requires n.src != [] && n.dst != [] && Growing(steps)
    ensures Grew(Last(n.src), Last(RunFrom(n, steps).src)) && Grew(Last(n.dst), Last(RunFrom(n, steps).dst))
  {
    if steps != [] {
      var front, st := steps[..|steps| - 1], steps[|steps| - 1];
      GrowKeeps(n, front);
      var m := RunFrom(n, front);
      if st.onSrc {
        GrowOne(m.order, m.src, m.dst, st.delay, st.action);
        GrewTrans(Last(n.src), Last(m.src), Last(RunFrom(n, steps).src));
      } else {
        GrowOne(m.order, m.dst, m.src, st.delay, st.action);
        GrewTrans(Last(n.dst), Last(m.dst), Last(RunFrom(n, steps).dst));
      }
    }
  }

  // ---- Passes extend the chains and keep the invariant ----------------------------------------

  ghost predicate Extends(n: Net, n': Net) {
    n.src <= n'.src && n.dst <= n'.dst
  }

  lemma PassExtends(n: Net, pass: Pass)
    requires n.src != [] && n.dst != []
    ensures Extends(n, Grown(n, pass)) && Extends(Grown(n, pass), Halfway(n, pass))
    ensures Extends(Halfway(n, pass), Done(n, pass)) && Extends(n, Done(n, pass))
  {
    var a, b, c := Grown(n, pass), Halfway(n, pass), Done(n, pass);
    PhaseExtends(a, pass.packets);
    PhaseExtends(b, pass.acks);
    ExtendsTrans(n, a, b);
    ExtendsTrans(n, b, c);
  }

  lemma PhaseExtends(n: Net, p: Plan)
    requires n.src != [] && n.dst != []
    ensures Extends(n, Asked(n, p)) && Extends(Asked(n, p), Built(n, p)) && Extends(Built(n, p), After(n, p))
    ensures Extends(n, After(n, p))
  {
    ExtendsTrans(n, Asked(n, p), Built(n, p));
    ExtendsTrans(n, Built(n, p), After(n, p));
  }

  lemma ExtendsTrans(a: Net, b: Net, c: Net)
    requires Extends(a, b) && Extends(b, c)
    ensures Extends(a, c)
  {
  }

  /** A pass of which either phase may have broken off. */
  ghost predicate IsAttempt(n: Net, pass: Pass)
    requires n.src != [] && n.dst != []
  {
    && (PacketPlan(Grown(n, pass), pass.packets) || Idle(pass.packets))
    && (AckPlan(Halfway(n, pass), pass.acks) || Idle(pass.acks))
  }

  ghost predicate AreAttempts(n: Net, passes: seq<Pass>)
    requires n.src != [] && n.dst != []
    decreases |passes|
  {
    passes == [] ||
    (AreAttempts(n, passes[..|passes| - 1]) && IsAttempt(Final(n, passes[..|passes| - 1]), passes[|passes| - 1]))
  }

  lemma PassKeepsInv(n: Net, pass: Pass)
    requires Inv(n) && (IsPass(n, pass) || IsAttempt(n, pass))
    ensures Inv(Grown(n, pass)) && Inv(Halfway(n, pass)) && Inv(Done(n, pass))
  {
    StepsKeep(n, pass.grow);
    PhaseKeepsInv(Grown(n, pass), pass.packets);
    PhaseKeepsInv(Halfway(n, pass), pass.acks);
  }

  /**
    A worker never leaves the invariant, whatever is rejected and whatever breaks off, so
    everything proved of runs holds of its runs too.
   */
  lemma {:induction false} AttemptsKeepInv(n: Net, passes: seq<Pass>)
    requires Inv(n) && AreAttempts(n, passes)
    ensures Inv(Final(n, passes))
    decreases |passes|
  {
    if passes != [] {
      AttemptsKeepInv(n, passes[..|passes| - 1]);
      PassKeepsInv(Final(n, passes[..|passes| - 1]), passes[|passes| - 1]);
    }
  }

  lemma {:induction false} PassesKeepInv(n: Net, passes: seq<Pass>)
    requires Inv(n) && ArePasses(n, passes)
    ensures Inv(Final(n, passes))
    decreases |passes|
  {
    if passes != [] {
      PassesKeepInv(n, passes[..|passes| - 1]);
      PassKeepsInv(Final(n, passes[..|passes| - 1]), passes[|passes| - 1]);
    }
  }

  lemma AttemptsAreSafe(n: Net, passes: seq<Pass>)
    requires Inv(n) && AreAttempts(n, passes)
    ensures var z := Final(n, passes);
            Safe(n.order, Last(z.src), Last(z.dst)) && Safe(n.order, Last(z.dst), Last(z.src))
  {
    AttemptsKeepInv(n, passes);
    InvIsSafe(Final(n, passes));
  }

  /** An earlier block of a chain has evolved into its last. */
  lemma Later(order: Order, chain: seq<End>, chain': seq<End>)
    requires chain != [] && chain <= chain' && History(order, chain')
    ensures Evolves(Last(chain), Last(chain')) && |chain| <= |chain'|
  {
  }
}
