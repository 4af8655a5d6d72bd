/**
  The fork-join queries of deps/relayer/relayer/naive-strategy.go.

  `UnrelayedSequences` runs up to two goroutines between three wait barriers, one
  per direction; each appends to, overwrites or scans shared slices one element at
  a time.  `UnrelayedAcknowledgements` has two barriers, and the goroutines behind the
  first write the result themselves.  The machine below takes one such atomic action
  per step, in any order the scheduler likes.
 */
module ForkJoin {
  import opened Types
  import opened Packets

  /** What the queries of one direction answer; None after the last retry has failed. */
  datatype Replies = Replies(
    listed: Option<seq<nat>>,
    unreceived: seq<nat> -> Option<seq<nat>>,
    nextRecv: Option<nat>)

  /** Which of the two functions runs. */
  datatype Job = Sequences(order: Order) | Acknowledgements

  // ---- One direction at a time, without goroutines ------------------------------

  function Listed(r: Replies): seq<nat> {
    if r.listed.Some? then r.listed.value else []
  }

  function Unreceived(r: Replies): seq<nat> {
    if Listed(r) == [] || r.unreceived(Listed(r)).None? then [] else r.unreceived(Listed(r)).value
  }

  function Sequential(job: Job, r: Replies): seq<nat> {
    if job != Sequences(Ordered) then Unreceived(r)
    else if r.nextRecv.Some? && r.nextRecv.value in Unreceived(r) then [r.nextRecv.value]
    else []
  }

  // ---- The goroutines -------------------------------------------------------------

  datatype Phase = Commitments | Unreceiveds | NextSeqs | Done

  datatype Pc = Idle | Querying | Appending(res: seq<nat>, i: nat) | Scanning(next: nat, k: nat)

  /** The variables one direction owns. */
  datatype Lane = Lane(pc: Pc, packetSeq: seq<nat>, unreceived: seq<nat>, rs: seq<nat>)

  datatype State = State(phase: Phase, src: Lane, dst: Lane)

  datatype Who = SrcLane | DstLane | Barrier

  const START := State(Commitments, Lane(Querying, [], [], []), Lane(Querying, [], [], []))

  function Query(job: Job, r: Replies, phase: Phase, l: Lane): Lane {
    match phase
    case Commitments =>
      (match r.listed
       case None => l.(pc := Idle)
       case Some(res) => l.(pc := Appending(res, 0)))
    case Unreceiveds =>
      (match r.unreceived(l.packetSeq)
       case None => if job.Acknowledgements? then l.(pc := Idle, rs := []) else l.(pc := Idle)
       case Some(u) => if job.Acknowledgements? then l.(pc := Idle, rs := u) else l.(pc := Idle, unreceived := u))
    case NextSeqs =>
      (match r.nextRecv
       case None => l.(pc := Idle)
       case Some(n) => l.(pc := Scanning(n, 0)))
    case Done => l
  }

  function LaneStep(job: Job, r: Replies, phase: Phase, l: Lane): Lane {
    match l.pc
    case Idle => l
    case Querying => Query(job, r, phase, l)
    case Appending(res, i) =>
      if i < |res| then l.(packetSeq := l.packetSeq + [res[i]], pc := Appending(res, i + 1)) else l.(pc := Idle)
    case Scanning(n, k) =>
      if k >= |l.unreceived| then l.(pc := Idle)
      else if l.unreceived[k] == n then l.(rs := l.rs + [n], pc := Idle)
      else l.(pc := Scanning(n, k + 1))
  }

  function Spawn(l: Lane, work: seq<nat>): Lane {
    if work == [] then l else l.(pc := Querying)
  }

  /** The main goroutine passes a barrier once both lanes are done. */
  function Pass(job: Job, st: State): State {
    if st.src.pc != Idle || st.dst.pc != Idle then st
    else
      match st.phase
      case Commitments => State(Unreceiveds, Spawn(st.src, st.src.packetSeq), Spawn(st.dst, st.dst.packetSeq))
      case Unreceiveds =>
        if job.Acknowledgements? then st.(phase := Done)
        else if job.order.Unordered? then
          State(Done, st.src.(rs := st.src.unreceived), st.dst.(rs := st.dst.unreceived))
        else
          State(NextSeqs, Spawn(st.src, st.src.unreceived), Spawn(st.dst, st.dst.unreceived))
      case NextSeqs => st.(phase := Done)
      case Done => st
  }

  function Step(job: Job, rs: Replies, rd: Replies, st: State, who: Who): State {
    match who
    case SrcLane => st.(src := LaneStep(job, rs, st.phase, st.src))
    case DstLane => st.(dst := LaneStep(job, rd, st.phase, st.dst))
    case Barrier => Pass(job, st)
  }

  function Run(job: Job, rs: Replies, rd: Replies, schedule: seq<Who>): State {
    if schedule == [] then START
    else Step(job, rs, rd, Run(job, rs, rd, schedule[..|schedule| - 1]), schedule[|schedule| - 1])
  }

  // ---- Confluence ------------------------------------------------------------------

  ghost predicate LaneOk(job: Job, r: Replies, phase: Phase, l: Lane) {
    match phase
    case Commitments =>
      && l.unreceived == [] && l.rs == [] && !l.pc.Scanning?
      && (l.pc == Querying ==> l.packetSeq == [])
      && (l.pc.Appending? ==> r.listed == Some(l.pc.res) && l.pc.i <= |l.pc.res| && l.packetSeq == l.pc.res[..l.pc.i])
      && (l.pc == Idle ==> l.packetSeq == Listed(r))
    case Unreceiveds =>
      && l.packetSeq == Listed(r) && (l.pc == Idle || l.pc == Querying)
      && (l.pc == Querying ==> l.packetSeq != [] && l.unreceived == [] && l.rs == [])
      && (l.pc == Idle ==> if job.Acknowledgements? then l.rs == Unreceived(r) else l.unreceived == Unreceived(r) && l.rs == [])
    case NextSeqs =>
      && job == Sequences(Ordered) && l.unreceived == Unreceived(r) && !l.pc.Appending?
      && (l.pc == Querying ==> l.rs == [])
      && (l.pc.Scanning? ==> r.nextRecv == Some(l.pc.next) && l.pc.k <= |l.unreceived| && l.rs == []
                             && l.pc.next !in l.unreceived[..l.pc.k])
      && (l.pc == Idle ==> l.rs == Sequential(job, r))
    case Done => l.pc == Idle && l.rs == Sequential(job, r)
  }

  lemma LaneStepOk(job: Job, r: Replies, phase: Phase, l: Lane)
    requires LaneOk(job, r, phase, l)
    ensures LaneOk(job, r, phase, LaneStep(job, r, phase, l))
  {
    match l.pc
    case Idle =>
    case Querying =>
    case Appending(res, i) =>
      if i < |res| {
        assert res[..i + 1] == res[..i] + [res[i]];
      } else {
        assert res[..i] == res;
      }
    case Scanning(n, k) =>
      var u := l.unreceived;
      if k < |u| {
        assert u[..k + 1] == u[..k] + [u[k]];
      } else {
        assert u[..k] == u;
      }
  }

  lemma PassOk(job: Job, rs: Replies, rd: Replies, st: State)
    requires LaneOk(job, rs, st.phase, st.src) && LaneOk(job, rd, st.phase, st.dst)
    ensures var st' := Pass(job, st);
            LaneOk(job, rs, st'.phase, st'.src) && LaneOk(job, rd, st'.phase, st'.dst)
  {
  }

  lemma {:induction false} RunOk(job: Job, rs: Replies, rd: Replies, schedule: seq<Who>)
    ensures var st := Run(job, rs, rd, schedule);
            LaneOk(job, rs, st.phase, st.src) && LaneOk(job, rd, st.phase, st.dst)
  {
    if schedule != [] {
      var before := schedule[..|schedule| - 1];
      var st := Run(job, rs, rd, before);
      RunOk(job, rs, rd, before);
      LaneStepOk(job, rs, st.phase, st.src);
      LaneStepOk(job, rd, st.phase, st.dst);
      PassOk(job, rs, rd, st);
    }
  }

  /** Any schedule that finishes yields what the two directions yield one after the other. */
  lemma Confluent(job: Job, rs: Replies, rd: Replies, schedule: seq<Who>)
    requires Run(job, rs, rd, schedule).phase == Done
    ensures Run(job, rs, rd, schedule).src.rs == Sequential(job, rs)
    ensures Run(job, rs, rd, schedule).dst.rs == Sequential(job, rd)
  {
    RunOk(job, rs, rd, schedule);
  }

  // ---- Termination -------------------------------------------------------------------

  function PhasesLeft(p: Phase): nat {
    match p case Commitments => 3 case Unreceiveds => 2 case NextSeqs => 1 case Done => 0
  }

  function Work(r: Replies, l: Lane): nat {
    match l.pc
    case Idle => 0
    case Querying => |Listed(r)| + |l.unreceived| + 2
    case Appending(res, i) => if i <= |res| then |res| - i + 1 else 1
    case Scanning(n, k) => if k <= |l.unreceived| then |l.unreceived| - k + 1 else 1
  }

  function Effort(rs: Replies, rd: Replies, st: State): nat {
    Work(rs, st.src) + Work(rd, st.dst)
  }

  /** A step that does anything uses up a phase or, within a phase, some of its bounded work. */
  lemma StepsTerminate(job: Job, rs: Replies, rd: Replies, st: State, who: Who)
    requires LaneOk(job, rs, st.phase, st.src) && LaneOk(job, rd, st.phase, st.dst)
    ensures var st' := Step(job, rs, rd, st, who);
            || st' == st
            || PhasesLeft(st'.phase) < PhasesLeft(st.phase)
            || (st'.phase == st.phase && Effort(rs, rd, st') < Effort(rs, rd, st))
  {
  }

  /** The machine never gets stuck before it is done. */
  lemma NeverStuck(job: Job, rs: Replies, rd: Replies, st: State) returns (who: Who)
    requires LaneOk(job, rs, st.phase, st.src) && LaneOk(job, rd, st.phase, st.dst)
    requires st.phase != Done
    ensures Step(job, rs, rd, st, who) != st
  {
    who := if st.src.pc != Idle then SrcLane else if st.dst.pc != Idle then DstLane else Barrier;
  }

  // ---- Failures -----------------------------------------------------------------------

  /** `r` answers like `full`, except that some of its queries fail. */
  ghost predicate Weaker(r: Replies, full: Replies) {
    && (r.listed.None? || r.listed == full.listed)
    && (forall q :: r.unreceived(q).None? || r.unreceived(q) == full.unreceived(q))
    && (r.nextRecv.None? || r.nextRecv == full.nextRecv)
  }

  /** Failed queries only ever make the relayer pick fewer sequences. */
  lemma FailuresShrink(job: Job, r: Replies, full: Replies, s: nat)
    requires Weaker(r, full) && s in Sequential(job, r)
    ensures s in Sequential(job, full)
  {
  }
}
