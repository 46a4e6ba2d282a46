/**
 * File-backed commands between the desktop and the agent, step by step: rename to claim, act, write
 * the result, remove the claim. The agent may stop between any two steps.
 */
module CommandProtocol {
  import opened Prelude
  import opened Folding
  import opened UsageReceipts

  /** The two kinds of command file; the name in front of the suffix should be the command's id. */
  datatype Path = Request(name: string) | Processing(name: string)

  datatype Command = Command(id: string, kind: string, receipt: Option<Raw>)

  /** What a command file decodes to. */
  datatype Content = Undecodable | Decoded(command: Command)

  datatype Status = Accepted | Rejected | Failed

  /** What an agent thread is doing: nothing, holding a claim, or holding a claim it has acted on. */
  datatype Phase = Idle | Claimed(command: Command) | Acted(command: Command, status: Status)
                 | Replied(command: Command)

  /** `replies` remembers every result ever written, also those the desktop has consumed. */
  datatype System = System(files: map<Path, Content>, ledger: Ledger, phase: map<string, Phase>,
                           submitted: map<string, Command>, replies: map<string, Status>)

  datatype Event =
    | Submit(command: Command)
    | Litter(path: Path, content: Content)
    | Visit(worker: string, path: Path, accepts: set<string>)
    | Act(worker: string, now: int, works: bool)
    | Reply(worker: string)
    | Release(worker: string)
    | Restart

  const RECEIPT_KIND: string := "ai.usage.receipt.record"

  function Start(): System {
    System(map[], map[], map[], map[], map[])
  }

  function PhaseOf(s: System, worker: string): Phase {
    if worker in s.phase then s.phase[worker] else Idle
  }

  function InPhase(s: System, worker: string, phase: Phase): System {
    s.(phase := s.phase[worker := phase])
  }

  /** One path of the scan: remove what cannot be a command, skip foreign kinds, claim the rest. */
  function Visited(s: System, worker: string, path: Path, accepts: set<string>): System {
    if path !in s.files || PhaseOf(s, worker) != Idle then s
    else match s.files[path]
      case Undecodable => s.(files := s.files - {path})
      case Decoded(command) =>
        if command.kind !in accepts then s
        else if path.name != command.id then s.(files := s.files - {path})
        else InPhase(s.(files := (s.files - {path})[Processing(command.id) := Decoded(command)]), worker,
                     Claimed(command))
  }

  /** Acting on a receipt command records it; any other kind stands for work outside this model. */
  function ActedOn(s: System, worker: string, command: Command, now: int, works: bool): System {
    if !works then InPhase(s, worker, Acted(command, Failed))
    else if command.kind == RECEIPT_KIND && command.receipt.None? then InPhase(s, worker, Acted(command, Rejected))
    else if command.kind == RECEIPT_KIND then
      var (ledger, outcome) := Recording(s.ledger, command.receipt.value, now);
      InPhase(s.(ledger := ledger), worker, Acted(command, if outcome == Refused then Rejected else Accepted))
    else InPhase(s, worker, Acted(command, Accepted))
  }

  function Stepped(s: System, e: Event): System {
    match e
    case Submit(command) =>
      if command.id in s.submitted || Request(command.id) in s.files || Processing(command.id) in s.files then s
      else s.(files := s.files[Request(command.id) := Decoded(command)],
              submitted := s.submitted[command.id := command])
    case Litter(path, content) =>
      if path in s.files || path.name in s.submitted || (content.Decoded? && content.command.id == path.name) then s
      else s.(files := s.files[path := content])
    case Visit(worker, path, accepts) => Visited(s, worker, path, accepts)
    case Act(worker, now, works) =>
      (match PhaseOf(s, worker)
       case Claimed(command) => ActedOn(s, worker, command, now, works)
       case _ => s)
    case Reply(worker) =>
      (match PhaseOf(s, worker)
       case Acted(command, status) =>
         InPhase(s.(replies := s.replies[command.id := status]), worker, Replied(command))
       case _ => s)
    case Release(worker) =>
      (match PhaseOf(s, worker)
       case Replied(command) => InPhase(s.(files := s.files - {Processing(command.id)}), worker, Idle)
       case _ => s)
    case Restart => s.(phase := map[])
  }

  function StepOf(): (System, Event) -> System {
    (s: System, e: Event) => Stepped(s, e)
  }

  function After(events: seq<Event>): System {
    Accumulate(StepOf(), events, Start())
  }

  // ---- What every step keeps ----

  ghost predicate Waits(s: System, id: string) {
    && id in s.submitted
    && ((Request(id) in s.files && s.files[Request(id)] == Decoded(s.submitted[id]))
        || (Processing(id) in s.files && s.files[Processing(id)] == Decoded(s.submitted[id])))
  }

  /** Under the name of a submitted command there is nothing but that command. */
  ghost predicate FilesSound(s: System) {
    && (forall id :: id in s.submitted ==> s.submitted[id].id == id)
    && (forall p :: p in s.files && p.name in s.submitted ==> s.files[p] == Decoded(s.submitted[p.name]))
    && (forall p :: p in s.files && s.files[p].Decoded? && s.files[p].command.id == p.name ==> p.name in s.submitted)
  }

  /** Threads only work on submitted commands. */
  ghost predicate PhasesSound(s: System) {
    forall w :: w in s.phase ==> PhaseSound(s, s.phase[w])
  }

  ghost predicate PhaseSound(s: System, phase: Phase) {
    match phase
    case Idle => true
    case Claimed(c) => c.id in s.submitted && s.submitted[c.id] == c
    case Acted(c, status) => c.id in s.submitted && s.submitted[c.id] == c && (status == Accepted ==> Counted(s, c))
    case Replied(c) => c.id in s.submitted && s.submitted[c.id] == c && c.id in s.replies
  }

  /** The receipt of an accepted command is in the ledger as submitted. */
  predicate Counted(s: System, c: Command) {
    c.kind == RECEIPT_KIND && c.receipt.Some? ==>
      c.receipt.value.completed.Some? && c.receipt.value.hash in s.ledger
      && s.ledger[c.receipt.value.hash] == Admitted(c.receipt.value)
  }

  ghost predicate NothingLost(s: System) {
    && (forall id :: id in s.submitted ==> Waits(s, id) || id in s.replies)
    && (forall id :: id in s.replies ==>
          id in s.submitted && (s.replies[id] == Accepted ==> Counted(s, s.submitted[id])))
  }

  ghost predicate Holds(s: System) {
    FilesSound(s) && PhasesSound(s) && NothingLost(s)
  }

  /** Recorded receipts stay as they are. */
  ghost predicate Keeps(before: Ledger, after: Ledger) {
    forall h :: h in before ==> h in after && after[h] == before[h]
  }

  lemma ActKeeps(s: System, worker: string, command: Command, now: int, works: bool)
    requires Holds(s) && PhaseOf(s, worker) == Claimed(command)
    ensures Holds(ActedOn(s, worker, command, now, works))
    ensures Keeps(s.ledger, ActedOn(s, worker, command, now, works).ledger)
  {
    var after := ActedOn(s, worker, command, now, works);
    ActKeepsLedger(s, worker, command, now, works);
    CountedStays(s, after);
    OnlyThePhaseMoves(s, after, worker);
  }

  lemma ActKeepsLedger(s: System, worker: string, command: Command, now: int, works: bool)
    ensures var after := ActedOn(s, worker, command, now, works);
            && Keeps(s.ledger, after.ledger)
            && after == s.(ledger := after.ledger, phase := s.phase[worker := PhaseOf(after, worker)])
            && PhaseOf(after, worker).Acted? && PhaseOf(after, worker).command == command
            && (PhaseOf(after, worker).status == Accepted ==> Counted(after, command))
  {
    if works && command.kind == RECEIPT_KIND && command.receipt.Some? {
      RecordCountsOnce(s.ledger, command.receipt.value, now);
      NotRefusedIsAdmissible(s.ledger, command.receipt.value, now);
    }
  }

  lemma NotRefusedIsAdmissible(ledger: Ledger, raw: Raw, now: int)
    ensures Recording(ledger, raw, now).1 != Refused ==> raw.completed.Some?
  {
  }

  lemma OnlyThePhaseMoves(s: System, after: System, worker: string)
    requires Holds(s) && Keeps(s.ledger, after.ledger)
    requires after == s.(ledger := after.ledger, phase := s.phase[worker := PhaseOf(after, worker)])
    requires PhaseSound(after, PhaseOf(after, worker))
    ensures Holds(after)
  {
    CountedStays(s, after);
    forall id | id in after.submitted
      ensures Waits(after, id) || id in after.replies
    {
      assert Waits(s, id) || id in s.replies;
    }
  }

  lemma CountedStays(before: System, after: System)
    requires Keeps(before.ledger, after.ledger)
    ensures forall c :: Counted(before, c) ==> Counted(after, c)
  {
  }

  lemma VisitKeeps(s: System, worker: string, path: Path, accepts: set<string>)
    requires Holds(s)
    ensures Holds(Visited(s, worker, path, accepts))
  {
    if path in s.files && PhaseOf(s, worker) == Idle {
      match s.files[path]
      case Undecodable => RemovalKeeps(s, path);
      case Decoded(command) =>
        if command.kind in accepts {
          if path.name != command.id {
            RemovalKeeps(s, path);
          } else {
            ClaimKeeps(s, worker, path, command);
          }
        }
    }
  }

  /** A file that is no submitted command may go. */
  lemma RemovalKeeps(s: System, path: Path)
    requires Holds(s) && path in s.files && (s.files[path].Decoded? ==> s.files[path].command.id != path.name)
    ensures Holds(s.(files := s.files - {path}))
  {
    var after := s.(files := s.files - {path});
    assert path.name !in s.submitted;
    SameNamesWait(s, after);
  }

  lemma ClaimKeeps(s: System, worker: string, path: Path, command: Command)
    requires Holds(s) && path in s.files && s.files[path] == Decoded(command) && path.name == command.id
    ensures Holds(InPhase(s.(files := (s.files - {path})[Processing(command.id) := Decoded(command)]), worker,
                          Claimed(command)))
  {
    var moved := s.(files := (s.files - {path})[Processing(command.id) := Decoded(command)]);
    MoveKeepsFiles(s, path, command);
    SameNamesWait(s, moved);
    OnlyThePhaseMoves(moved, InPhase(moved, worker, Claimed(command)), worker);
  }

  lemma MoveKeepsFiles(s: System, path: Path, command: Command)
    requires FilesSound(s) && path in s.files && s.files[path] == Decoded(command) && path.name == command.id
    ensures var moved := s.(files := (s.files - {path})[Processing(command.id) := Decoded(command)]);
            FilesSound(moved) && forall id :: Waits(s, id) ==> Waits(moved, id)
  {
  }

  /** When only files move and every waiting command still waits, nothing is lost. */
  lemma SameNamesWait(s: System, after: System)
    requires Holds(s) && after == s.(files := after.files) && FilesSound(after)
    requires forall id :: Waits(s, id) ==> Waits(after, id) || id in s.replies
    ensures Holds(after)
  {
    CountedStays(s, after);
    forall id | id in after.submitted
      ensures Waits(after, id) || id in after.replies
    {
      assert Waits(s, id) || id in s.replies;
    }
  }

  lemma SubmitKeeps(s: System, command: Command)
    requires Holds(s) && command.id !in s.submitted && Request(command.id) !in s.files
             && Processing(command.id) !in s.files
    ensures Holds(s.(files := s.files[Request(command.id) := Decoded(command)],
                     submitted := s.submitted[command.id := command]))
  {
    var after := s.(files := s.files[Request(command.id) := Decoded(command)],
                    submitted := s.submitted[command.id := command]);
    CountedStays(s, after);
    SubmitKeepsFiles(s, command, after);
    forall id | id in after.submitted
      ensures Waits(after, id) || id in after.replies
    {
      assert id in s.submitted ==> Waits(s, id) || id in s.replies;
    }
  }

  lemma SubmitKeepsFiles(s: System, command: Command, after: System)
    requires FilesSound(s) && command.id !in s.submitted && Request(command.id) !in s.files
             && Processing(command.id) !in s.files
    requires after == s.(files := s.files[Request(command.id) := Decoded(command)],
                         submitted := s.submitted[command.id := command])
    ensures FilesSound(after) && Waits(after, command.id) && forall id :: Waits(s, id) ==> Waits(after, id)
  {
    forall p | p in after.files && p.name in after.submitted
      ensures after.files[p] == Decoded(after.submitted[p.name])
    {
      assert p == Request(p.name) || p == Processing(p.name);
    }
  }

  lemma OnlyActsTouchTheLedger(s: System, e: Event)
    requires !e.Act? || !PhaseOf(s, e.worker).Claimed?
    ensures Stepped(s, e).ledger == s.ledger
  {
    if e.Visit? {
      VisitsSpareTheLedger(s, e.worker, e.path, e.accepts);
    }
  }

  lemma VisitsSpareTheLedger(s: System, worker: string, path: Path, accepts: set<string>)
    ensures Visited(s, worker, path, accepts).ledger == s.ledger
  {
  }

  lemma StepKeepsLedger(s: System, e: Event)
    ensures Keeps(s.ledger, Stepped(s, e).ledger)
  {
    if e.Act? && PhaseOf(s, e.worker).Claimed? {
      ActKeepsLedger(s, e.worker, PhaseOf(s, e.worker).command, e.now, e.works);
    } else {
      OnlyActsTouchTheLedger(s, e);
    }
  }

  /** Every step keeps the protocol sound and loses no command. */
  lemma StepKeeps(s: System, e: Event)
    requires Holds(s)
    ensures Holds(Stepped(s, e))
  {
    match e
    case Submit(command) => SubmissionKeeps(s, command);
    case Litter(path, content) => LitterKeeps(s, path, content);
    case Visit(worker, path, accepts) => VisitKeeps(s, worker, path, accepts);
    case Act(worker, now, works) => ActionKeeps(s, worker, now, works);
    case Reply(worker) => ReplyKeeps(s, worker);
    case Release(worker) => ReleaseKeeps(s, worker);
    case Restart => RestartKeeps(s);
  }

  lemma SubmissionKeeps(s: System, command: Command)
    requires Holds(s)
    ensures Holds(Stepped(s, Submit(command)))
  {
    if Stepped(s, Submit(command)) != s {
      SubmitKeeps(s, command);
    }
  }

  lemma ActionKeeps(s: System, worker: string, now: int, works: bool)
    requires Holds(s)
    ensures Holds(Stepped(s, Act(worker, now, works)))
  {
    if PhaseOf(s, worker).Claimed? {
      ActKeeps(s, worker, PhaseOf(s, worker).command, now, works);
    }
  }

  lemma LitterKeeps(s: System, path: Path, content: Content)
    requires Holds(s)
    ensures Holds(Stepped(s, Litter(path, content)))
  {
    var after := Stepped(s, Litter(path, content));
    if after != s {
      SameNamesWait(s, after);
    }
  }

  lemma AnswerKeeps(s: System, command: Command, status: Status)
    requires Holds(s) && PhaseSound(s, Acted(command, status))
    ensures Holds(s.(replies := s.replies[command.id := status]))
  {
    var answered := s.(replies := s.replies[command.id := status]);
    CountedStays(s, answered);
    forall id | id in answered.submitted
      ensures Waits(answered, id) || id in answered.replies
    {
      assert Waits(s, id) || id in s.replies;
    }
  }

  lemma ReplyKeeps(s: System, worker: string)
    requires Holds(s)
    ensures Holds(Stepped(s, Reply(worker)))
  {
    if PhaseOf(s, worker).Acted? {
      var command, status := PhaseOf(s, worker).command, PhaseOf(s, worker).status;
      AnswerKeeps(s, command, status);
      OnlyThePhaseMoves(s.(replies := s.replies[command.id := status]), Stepped(s, Reply(worker)), worker);
    }
  }

  lemma ReleaseKeeps(s: System, worker: string)
    requires Holds(s)
    ensures Holds(Stepped(s, Release(worker)))
  {
    if PhaseOf(s, worker).Replied? {
      var command := PhaseOf(s, worker).command;
      var released := s.(files := s.files - {Processing(command.id)});
      SameNamesWait(s, released);
      OnlyThePhaseMoves(released, Stepped(s, Release(worker)), worker);
    }
  }

  lemma RestartKeeps(s: System)
    requires Holds(s)
    ensures Holds(Stepped(s, Restart))
  {
    var after := Stepped(s, Restart);
    CountedStays(s, after);
    forall id | id in after.submitted
      ensures Waits(after, id) || id in after.replies
    {
      assert Waits(s, id) || id in s.replies;
    }
  }

  // ---- Any run ----

  lemma AfterOneMore(events: seq<Event>, e: Event)
    ensures After(events + [e]) == Stepped(After(events), e)
  {
    AccumulateConcat(StepOf(), events, [e], Start());
    AccumulateOne(StepOf(), e, After(events));
  }

  /** A command under a free name is taken and waits. */
  lemma SubmissionWaits(events: seq<Event>, command: Command)
    requires forall p <- After(events).files :: p.name != command.id
    requires command.id !in After(events).submitted
    ensures var after := After(events + [Submit(command)]);
            Waits(after, command.id) && after.submitted[command.id] == command
  {
    AfterOneMore(events, Submit(command));
  }

  /**
   * Over any interleaving of submissions, claims, crashes and restarts: a submitted command still waits
   * or a result has been written for it, and a receipt answered as accepted is in the ledger as submitted.
   */
  lemma {:induction false} NoCommandDisappears(events: seq<Event>)
    ensures Holds(After(events))
  {
    if events == [] {
    } else {
      var n := |events| - 1;
      assert events == events[..n] + [events[n]];
      NoCommandDisappears(events[..n]);
      AfterOneMore(events[..n], events[n]);
      StepKeeps(After(events[..n]), events[n]);
    }
  }

  /** A recorded event keeps its one row whatever happens later. */
  lemma {:induction false} RecordedOnceForAll(events: seq<Event>, more: seq<Event>)
    ensures Keeps(After(events).ledger, After(events + more).ledger)
  {
    if more == [] {
      assert events + more == events;
    } else {
      var n := |more| - 1;
      assert events + more == (events + more[..n]) + [more[n]];
      RecordedOnceForAll(events, more[..n]);
      AfterOneMore(events + more[..n], more[n]);
      StepKeepsLedger(After(events + more[..n]), more[n]);
    }
  }

  lemma AfterFour(events: seq<Event>, e1: Event, e2: Event, e3: Event, e4: Event)
    ensures After(events + [e1, e2, e3, e4]) == Stepped(Stepped(Stepped(Stepped(After(events), e1), e2), e3), e4)
  {
    AfterOneMore(events, e1);
    AfterOneMore(events + [e1], e2);
    AfterOneMore(events + [e1] + [e2], e3);
    AfterOneMore(events + [e1] + [e2] + [e3], e4);
    assert events + [e1, e2, e3, e4] == events + [e1] + [e2] + [e3] + [e4];
  }

  lemma VisitClaims(s: System, worker: string, path: Path, command: Command)
    requires PhaseOf(s, worker) == Idle && path in s.files && s.files[path] == Decoded(command)
             && path.name == command.id
    ensures PhaseOf(Visited(s, worker, path, {command.kind}), worker) == Claimed(command)
  {
  }

  /** The result that a command deserves: a receipt is accepted if it is fair and either new or stored already. */
  predicate Deserves(ledger: Ledger, command: Command, now: int, status: Status) {
    if command.kind != RECEIPT_KIND then status == Accepted else
    status == (if command.receipt.Some? && Fair(command.receipt.value, now)
                  && (command.receipt.value.hash in ledger ==>
                        ledger[command.receipt.value.hash] == Admitted(command.receipt.value))
               then Accepted else Rejected)
  }

  lemma ClaimedFinishes(s: System, worker: string, command: Command, now: int)
    requires PhaseOf(s, worker) == Claimed(command)
    ensures var done := Stepped(Stepped(s, Act(worker, now, true)), Reply(worker));
            && command.id in done.replies && Deserves(s.ledger, command, now, done.replies[command.id])
            && (done.replies[command.id] == Accepted ==> Counted(done, command))
  {
    ActingLeavesAStatus(s, worker, command, now);
  }

  lemma ActingLeavesAStatus(s: System, worker: string, command: Command, now: int)
    requires PhaseOf(s, worker) == Claimed(command)
    ensures var after := Stepped(s, Act(worker, now, true));
            var phase := PhaseOf(after, worker);
            && phase.Acted? && phase.command == command && Deserves(s.ledger, command, now, phase.status)
            && (phase.status == Accepted ==> Counted(after, command))
  {
    if command.kind == RECEIPT_KIND && command.receipt.Some? {
      FairReceiptsAreRecorded(s.ledger, command.receipt.value, now);
    }
  }

  /** A waiting command can be driven to the result it deserves from any reachable state by a restart and one pass. */
  lemma WaitingCommandsCanFinish(events: seq<Event>, id: string, worker: string, path: Path, now: int)
    requires id in After(events).submitted && path in {Request(id), Processing(id)} && path in After(events).files
    ensures var kind := After(events).submitted[id].kind;
            var done := After(events + [Restart, Visit(worker, path, {kind}), Act(worker, now, true), Reply(worker)]);
            && id in done.replies && Deserves(After(events).ledger, After(events).submitted[id], now, done.replies[id])
            && (done.replies[id] == Accepted ==> Counted(done, After(events).submitted[id]))
  {
    NoCommandDisappears(events);
    var kind := After(events).submitted[id].kind;
    AfterFour(events, Restart, Visit(worker, path, {kind}), Act(worker, now, true), Reply(worker));
    PassFinishes(After(events), id, worker, path, now);
  }

  lemma PassFinishes(s: System, id: string, worker: string, path: Path, now: int)
    requires FilesSound(s) && id in s.submitted && path.name == id && path in s.files
    ensures var visited := Stepped(Stepped(s, Restart), Visit(worker, path, {s.submitted[id].kind}));
            var done := Stepped(Stepped(visited, Act(worker, now, true)), Reply(worker));
            && id in done.replies && Deserves(s.ledger, s.submitted[id], now, done.replies[id])
            && (done.replies[id] == Accepted ==> Counted(done, s.submitted[id]))
  {
    var rested, command := Stepped(s, Restart), s.submitted[id];
    VisitClaims(rested, worker, path, command);
    VisitsSpareTheLedger(rested, worker, path, {command.kind});
    ClaimedFinishes(Stepped(rested, Visit(worker, path, {command.kind})), worker, command, now);
  }
}
