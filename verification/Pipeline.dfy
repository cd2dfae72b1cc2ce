/** The download pipeline as a machine of interleaved atomic steps: the network thread hands pieces
    to workers, workers copy them into the mapped file and count slots down, verifiers hash finished
    chunks, and the main thread's tick settles the results with the scheduler. */
module Pipeline {
  import opened Assembly
  import opened SchedulerModel
  import opened SchedulerInvariant
  import opened SchedulerEvents

  datatype Config = Config(
    lens: seq<nat>,              // chunk lengths
    hash: seq<byte> -> nat,
    expected: seq<nat>,          // the seed's chunk hashes
    restored: set<nat>,          // chunks found intact on disk at the start
    workers: nat)

  ghost predicate ConfigOk(cfg: Config) {
    && |cfg.expected| == |cfg.lens| > 0     // an empty file cannot be opened
    && cfg.workers > 0
    && (forall c :: 0 <= c < |cfg.lens| ==> 0 < cfg.lens[c] <= 0xFFFF_C000)
  }

  function Sum(xs: seq<nat>): nat {
    if xs == [] then 0 else xs[0] + Sum(xs[1..])
  }

  function FileSize(cfg: Config): nat { Sum(cfg.lens) }

  function SlotCount(cfg: Config, c: nat): nat
    requires c < |cfg.lens|
  {
    Slots(cfg.lens[c], SUB_BLOCK_SIZE)
  }

  function Xor(a: nat, b: nat): nat
    decreases a + b
  {
    if a == 0 then b else if b == 0 then a
    else 2 * Xor(a / 2, b / 2) + (if a % 2 == b % 2 then 0 else 1)
  }

  /** The worker that handles a slot: `(chunk ^ slot) % N`. */
  function Route(cfg: Config, c: nat, slot: nat): (w: nat)
    requires cfg.workers > 0
    ensures w < cfg.workers
  {
    Xor(c, slot) % cfg.workers
  }

  datatype Piece = Piece(chunk: nat, begin: nat, data: seq<byte>, peer: nat)

  function SlotOf(p: Piece): nat { p.begin / SUB_BLOCK_SIZE }

  /** A piece that answers a request: aligned, and at least as long as its slot. */
  ghost predicate PieceOk(cfg: Config, p: Piece) {
    && p.chunk < |cfg.lens|
    && p.begin % SUB_BLOCK_SIZE == 0
    && p.begin < cfg.lens[p.chunk]
    && SlotLength(cfg.lens[p.chunk], SUB_BLOCK_SIZE, SlotOf(p)) <= |p.data| <= SUB_BLOCK_SIZE
  }

  /** What `on_piece` lets through. */
  predicate Fits(cfg: Config, p: Piece)
    requires p.chunk < |cfg.lens|
  {
    p.begin + |p.data| <= cfg.lens[p.chunk]
  }

  /** Where a worker stands inside `on_piece`. */
  datatype Worker =
    | Idle
    | Copying(piece: Piece, k: nat)   // k bytes copied
    | First(piece: Piece)             // set the slot's bit, has not counted down yet
    | Last(piece: Piece)              // counted down to zero, has not reported yet

  datatype Verifier = Free | Reading(msg: Completion, read: seq<byte>)

  datatype VerifyResult = VerifyResult(chunk: nat, winner: nat, passed: bool)

  datatype TaskState = TaskDownloading | TaskComplete | TaskWaiting

  datatype Sys = Sys(
    sched: State,
    asm: seq<Asm>,
    queues: seq<seq<Piece>>,
    pcs: seq<Worker>,
    verifyQ: seq<Completion>,
    verifiers: seq<Verifier>,
    results: seq<VerifyResult>,
    bytesDone: nat,
    task: TaskState,
    delivered: seq<Piece>,   // history: every piece handed over
    passes: seq<nat>,        // history: results settled per chunk
    fails: seq<nat>)

  datatype Step =
    | Net(event: Event)
    | Deliver(peer: nat, chunk: nat, begin: nat, data: seq<byte>, now: nat)
    | Take(w: nat)
    | CopyByte(w: nat)
    | Mark(w: nat)
    | CountDown(w: nat)
    | Report(w: nat)
    | Fetch(v: nat)
    | ReadByte(v: nat)
    | Post(v: nat)
    | Settle(now: nat, trackerDead: bool)

  // ---------------------------------------------------------------- sizes

  ghost predicate Shape(cfg: Config, s: Sys) {
    && ConfigOk(cfg)
    && |s.sched.chunks| == |s.asm| == |s.passes| == |s.fails| == |cfg.lens|
    && |s.queues| == |s.pcs| == cfg.workers
    && (forall c :: 0 <= c < |s.asm| ==> |s.asm[c].mem| == cfg.lens[c])
  }

  // ---------------------------------------------------------------- worker steps

  ghost predicate CanTake(cfg: Config, s: Sys, w: nat) {
    w < |s.pcs| && s.pcs[w] == Idle && w < |s.queues| && s.queues[w] != [] && s.queues[w][0].chunk < |cfg.lens|
  }

  function DoTake(cfg: Config, s: Sys, w: nat): Sys
    requires CanTake(cfg, s, w)
  {
    var p := s.queues[w][0];
    s.(queues := s.queues[w := s.queues[w][1..]],
       pcs := if Fits(cfg, p) then s.pcs[w := Copying(p, 0)] else s.pcs)
  }

  ghost predicate CanCopy(s: Sys, w: nat) {
    && w < |s.pcs| && s.pcs[w].Copying? && s.pcs[w].k < |s.pcs[w].piece.data|
    && var p := s.pcs[w].piece;
       p.chunk < |s.asm| && p.begin + s.pcs[w].k < |s.asm[p.chunk].mem|
  }

  function DoCopy(s: Sys, w: nat): Sys
    requires CanCopy(s, w)
  {
    var p, k := s.pcs[w].piece, s.pcs[w].k;
    var a := s.asm[p.chunk];
    s.(asm := s.asm[p.chunk := a.(mem := a.mem[p.begin + k := p.data[k]])], pcs := s.pcs[w := Copying(p, k + 1)])
  }

  ghost predicate CanMark(s: Sys, w: nat) {
    && w < |s.pcs| && s.pcs[w].Copying? && s.pcs[w].k == |s.pcs[w].piece.data|
    && s.pcs[w].piece.chunk < |s.asm|
  }

  function DoMark(s: Sys, w: nat): Sys
    requires CanMark(s, w)
  {
    var p := s.pcs[w].piece;
    var a := s.asm[p.chunk];
    s.(asm := s.asm[p.chunk := a.(marked := a.marked + {SlotOf(p)})],
       pcs := s.pcs[w := if SlotOf(p) in a.marked then Idle else First(p)])
  }

  ghost predicate CanCountDown(s: Sys, w: nat) {
    w < |s.pcs| && s.pcs[w].First? && s.pcs[w].piece.chunk < |s.asm|
  }

  function DoCountDown(s: Sys, w: nat): Sys
    requires CanCountDown(s, w)
  {
    var p := s.pcs[w].piece;
    var a := s.asm[p.chunk];
    s.(asm := s.asm[p.chunk := a.(pending := CountedDown(a.pending))],
       pcs := s.pcs[w := if a.pending == 1 then Last(p) else Idle])
  }

  ghost predicate CanReport(s: Sys, w: nat) {
    w < |s.pcs| && s.pcs[w].Last?
  }

  function DoReport(s: Sys, w: nat): Sys
    requires CanReport(s, w)
  {
    var p := s.pcs[w].piece;
    s.(verifyQ := s.verifyQ + [Completion(p.chunk, p.peer)], pcs := s.pcs[w := Idle])
  }

  // ---------------------------------------------------------------- verifier steps

  ghost predicate CanFetch(s: Sys, v: nat) {
    v < |s.verifiers| && s.verifiers[v] == Free && s.verifyQ != []
  }

  function DoFetch(s: Sys, v: nat): Sys
    requires CanFetch(s, v)
  {
    s.(verifyQ := s.verifyQ[1..], verifiers := s.verifiers[v := Reading(s.verifyQ[0], [])])
  }

  ghost predicate CanRead(s: Sys, v: nat) {
    && v < |s.verifiers| && s.verifiers[v].Reading? && s.verifiers[v].msg.chunk < |s.asm|
    && |s.verifiers[v].read| < |s.asm[s.verifiers[v].msg.chunk].mem|
  }

  function DoRead(s: Sys, v: nat): Sys
    requires CanRead(s, v)
  {
    var msg, read := s.verifiers[v].msg, s.verifiers[v].read;
    s.(verifiers := s.verifiers[v := Reading(msg, read + [s.asm[msg.chunk].mem[|read|]])])
  }

  ghost predicate CanPost(cfg: Config, s: Sys, v: nat) {
    && v < |s.verifiers| && s.verifiers[v].Reading? && s.verifiers[v].msg.chunk < |cfg.lens| == |cfg.expected|
    && |s.verifiers[v].read| == cfg.lens[s.verifiers[v].msg.chunk]
  }

  function DoPost(cfg: Config, s: Sys, v: nat): Sys
    requires CanPost(cfg, s, v)
  {
    var msg, read := s.verifiers[v].msg, s.verifiers[v].read;
    s.(results := s.results + [VerifyResult(msg.chunk, msg.winner, cfg.hash(read) == cfg.expected[msg.chunk])],
       verifiers := s.verifiers[v := Free])
  }

  // ---------------------------------------------------------------- network steps

  ghost predicate CanNet(s: Sys, e: Event) {
    Wf(s.sched) && NetEvent(e) && !e.PieceArrived? && !e.Ticked? && Enabled(s.sched, e)
  }

  /** A piece arrives that answers some request sent to that peer: at least the slot's own bytes, at
      most one sub-block. */
  ghost predicate CanDeliver(cfg: Config, s: Sys, p: Piece) {
    && Wf(s.sched) && cfg.workers > 0 && |s.queues| == cfg.workers
    && Request(p.peer, p.chunk, p.begin) in s.sched.effects
    && (p.chunk < |cfg.lens| ==>
          SlotLength(cfg.lens[p.chunk], SUB_BLOCK_SIZE, SlotOf(p)) <= |p.data| <= SUB_BLOCK_SIZE)
  }

  ghost function DoDeliver(cfg: Config, s: Sys, p: Piece, now: nat): Sys
    requires CanDeliver(cfg, s, p)
  {
    var w := Route(cfg, p.chunk, SlotOf(p));
    s.(queues := s.queues[w := s.queues[w] + [p]],
       delivered := s.delivered + [p],
       sched := OnPiece(s.sched, p.peer, p.chunk, p.begin, now))
  }

  // ---------------------------------------------------------------- the tick

  datatype Settlement = Settlement(sched: State, passed: seq<Completion>, bytes: nat, passes: seq<nat>, fails: seq<nat>)

  ghost predicate SettlementOk(cfg: Config, d: Settlement) {
    && Wf(d.sched) && |d.sched.chunks| == |d.passes| == |d.fails| == |cfg.lens|
    && (forall i :: 0 <= i < |d.passed| ==> d.passed[i].chunk < |cfg.lens|)
  }

  ghost predicate ResultsInRange(cfg: Config, results: seq<VerifyResult>) {
    forall i :: 0 <= i < |results| ==> results[i].chunk < |cfg.lens|
  }

  function SettleOne(cfg: Config, d: Settlement, r: VerifyResult): (d': Settlement)
    requires SettlementOk(cfg, d) && r.chunk < |cfg.lens|
    ensures SettlementOk(cfg, d')
  {
    if r.passed
    then d.(passed := d.passed + [Completion(r.chunk, r.winner)],
            bytes := d.bytes + cfg.lens[r.chunk],
            passes := d.passes[r.chunk := d.passes[r.chunk] + 1])
    else d.(sched := VerifyFailed(d.sched, r.chunk), fails := d.fails[r.chunk := d.fails[r.chunk] + 1])
  }

  function SettleFrom(cfg: Config, d: Settlement, results: seq<VerifyResult>, k: nat): (d': Settlement)
    requires SettlementOk(cfg, d) && ResultsInRange(cfg, results) && k <= |results|
    ensures SettlementOk(cfg, d')
    decreases |results| - k
  {
    if k == |results| then d else SettleFrom(cfg, SettleOne(cfg, d, results[k]), results, k + 1)
  }

  ghost predicate CanSettle(cfg: Config, s: Sys) {
    && Inv(s.sched) && ResultsInRange(cfg, s.results)
    && |s.sched.chunks| == |s.passes| == |s.fails| == |cfg.lens|
  }

  function AfterPassed(sched: State, passed: seq<Completion>): (r: State)
    requires Wf(sched) && forall i :: 0 <= i < |passed| ==> passed[i].chunk < |sched.chunks|
    ensures Wf(r)
  {
    if passed == [] then sched else ProcessCompletions(sched, passed)
  }

  function TaskAfter(cfg: Config, task: TaskState, bytes: nat, trackerDead: bool): TaskState {
    if task != TaskDownloading then task
    else if bytes >= FileSize(cfg) then TaskComplete
    else if trackerDead then TaskWaiting
    else task
  }

  ghost function DoSettle(cfg: Config, s: Sys, now: nat, trackerDead: bool): Sys
    requires CanSettle(cfg, s)
  {
    TickKeeps(s.sched, now);
    var d := SettleFrom(cfg, Settlement(Tick(s.sched, now), [], s.bytesDone, s.passes, s.fails), s.results, 0);
    s.(sched := AfterPassed(d.sched, d.passed), results := [], bytesDone := d.bytes,
       passes := d.passes, fails := d.fails, task := TaskAfter(cfg, s.task, d.bytes, trackerDead))
  }

  // ---------------------------------------------------------------- runs

  ghost predicate CanDo(cfg: Config, s: Sys, step: Step) {
    match step
    case Net(e) => CanNet(s, e)
    case Deliver(peer, c, begin, data, _) => CanDeliver(cfg, s, Piece(c, begin, data, peer))
    case Take(w) => CanTake(cfg, s, w)
    case CopyByte(w) => CanCopy(s, w)
    case Mark(w) => CanMark(s, w)
    case CountDown(w) => CanCountDown(s, w)
    case Report(w) => CanReport(s, w)
    case Fetch(v) => CanFetch(s, v)
    case ReadByte(v) => CanRead(s, v)
    case Post(v) => CanPost(cfg, s, v)
    case Settle(_, _) => CanSettle(cfg, s)
  }

  ghost function Do(cfg: Config, s: Sys, step: Step): Sys
    requires CanDo(cfg, s, step)
  {
    match step
    case Net(e) => s.(sched := Apply(s.sched, e))
    case Deliver(peer, c, begin, data, now) => DoDeliver(cfg, s, Piece(c, begin, data, peer), now)
    case Take(w) => DoTake(cfg, s, w)
    case CopyByte(w) => DoCopy(s, w)
    case Mark(w) => DoMark(s, w)
    case CountDown(w) => DoCountDown(s, w)
    case Report(w) => DoReport(s, w)
    case Fetch(v) => DoFetch(s, v)
    case ReadByte(v) => DoRead(s, v)
    case Post(v) => DoPost(cfg, s, v)
    case Settle(now, trackerDead) => DoSettle(cfg, s, now, trackerDead)
  }

  ghost predicate Reaches(cfg: Config, s: Sys, steps: seq<Step>, r: Sys)
    decreases |steps|
  {
    if |steps| == 0 then r == s
    else CanDo(cfg, s, steps[0]) && Reaches(cfg, Do(cfg, s, steps[0]), steps[1..], r)
  }
}
