/** Control commands are exactly-once: the command record of a key is the one commit made under it. */
module CommandInvariant {
  import opened CaseHistory
  import opened Documents
  import opened Machine
  import opened HistoryInvariant

  type Commands = map<string, Command>

  /** The commit was recorded under its key, with the version it produced as the result. */
  ghost predicate CommitRecorded(caseId: string, commands: Commands, commit: Commit) {
    commit.writer.Control? ==>
      && commit.writer.key in commands
      && commands[commit.writer.key] == Command(caseId, commit.run.ownerId, commit.writer.action, RunResult(commit.run))
  }

  /** The recorded result is the version that the key's one commit produced. */
  ghost predicate RecordCommitted(history: seq<Commit>, key: string, command: Command) {
    match command.result
    case RunResult(run) =>
      && Snapshot(history, run) && !command.action.Delete?
      && var writer := history[run.version - 1].writer;
         writer.Control? && writer.key == key && writer.action == command.action
    case DeletionAccepted(_) => command.action.Delete?
  }

  ghost predicate ReplyOk(caseId: string, commands: Commands, reply: Reply) {
    if reply.request.action.Delete? then reply.result.DeletionAccepted?
    else
      && reply.request.key in commands
      && SameCommand(commands[reply.request.key], caseId, reply.request)
      && commands[reply.request.key].result == reply.result
  }

  ghost predicate CommandInv(s: State) {
    && (forall i :: 0 <= i < |s.history| ==> CommitRecorded(s.caseId, s.docs.commands, s.history[i]))
    && (forall key :: key in s.docs.commands && s.docs.commands[key].caseId == s.caseId ==>
          RecordCommitted(s.history, key, s.docs.commands[key]))
    && (forall i :: 0 <= i < |s.replies| ==> ReplyOk(s.caseId, s.docs.commands, s.replies[i]))
  }

  /** What the command records need of an effect. */
  ghost predicate AnswersSound(s: State, effect: Effect)
    requires |s.history| > 0
  {
    match effect
    case Commits(docs, writer, answers) =>
      forall i :: 0 <= i < |answers| ==> ReplyOk(s.caseId, docs.commands, answers[i])
    case Answers(reply) => ReplyOk(s.caseId, s.docs.commands, reply)
    case Deletes(docs, reply) =>
      && reply.request.action.Delete?
      && reply.request.key !in s.docs.commands
      && docs.commands == s.docs.commands[reply.request.key :=
           Command(s.caseId, reply.request.ownerId, Delete, reply.result)]
      && reply.result.DeletionAccepted?
    case _ => true
  }

  lemma ControllerAnswers(s: State, role: Role, pc: Pc, o: Outcome)
    requires |s.history| > 0 && CommandInv(s) && role.Controller?
    ensures AnswersSound(s, ControllerMove(s, role, pc, o).effect)
  {
    var key := role.request.key;
    if pc.Load? && key in s.docs.commands && s.docs.commands[key].caseId == s.caseId {
      assert RecordCommitted(s.history, key, s.docs.commands[key]);
    }
  }

  lemma RunnerAnswers(s: State, w: nat, role: Role, pc: Pc, o: Outcome)
    requires |s.history| > 0 && role.Runner?
    ensures AnswersSound(s, RunnerMove(s, w, role, pc, o).effect)
  {
  }

  lemma MoveAnswers(s: State, w: nat, o: Outcome)
    requires |s.history| > 0 && CommandInv(s) && w in s.workers
    ensures AnswersSound(s, MoveOf(s, w, o).effect)
  {
    var Worker(role, pc) := s.workers[w];
    match role
    case Runner(_, _, _) => RunnerAnswers(s, w, role, pc, o);
    case Controller(_) => ControllerAnswers(s, role, pc, o);
    case Witness(_, _) | Dispatcher =>
  }

  lemma CommitsKeepsCommands(s: State, effect: Effect)
    requires HistoryInv(s) && CommandInv(s) && effect.Commits? && EffectSound(s, effect) && AnswersSound(s, effect)
    ensures CommandInv(Perform(s, effect))
  {
    VersionsCount(s);
    var s' := Perform(s, effect);
    forall i | 0 <= i < |s'.history|
      ensures CommitRecorded(s'.caseId, s'.docs.commands, s'.history[i])
    {
      if i < |s.history| {
        assert CommitRecorded(s.caseId, s.docs.commands, s.history[i]);
      }
    }
    forall key | key in s'.docs.commands && s'.docs.commands[key].caseId == s.caseId
      ensures RecordCommitted(s'.history, key, s'.docs.commands[key])
    {
    }
    forall i | 0 <= i < |s'.replies|
      ensures ReplyOk(s'.caseId, s'.docs.commands, s'.replies[i])
    {
      if i < |s.replies| {
        assert ReplyOk(s.caseId, s.docs.commands, s.replies[i]);
      }
    }
  }

  lemma PerformKeepsCommands(s: State, effect: Effect)
    requires HistoryInv(s) && CommandInv(s) && EffectSound(s, effect) && AnswersSound(s, effect)
    ensures CommandInv(Perform(s, effect))
  {
    match effect
    case Commits(_, _, _) => CommitsKeepsCommands(s, effect);
    case Deletes(_, _) =>
      forall i | 0 <= i < |s.history|
        ensures CommitRecorded(s.caseId, effect.docs.commands, s.history[i])
      {
        assert CommitRecorded(s.caseId, s.docs.commands, s.history[i]);
      }
      forall i | 0 <= i < |s.replies|
        ensures ReplyOk(s.caseId, effect.docs.commands, s.replies[i])
      {
        assert ReplyOk(s.caseId, s.docs.commands, s.replies[i]);
      }
    case _ =>
  }

  lemma CommandStep(s: State, l: Label)
    requires HistoryInv(s) && CommandInv(s) && Enabled(s, l)
    ensures CommandInv(Next(s, l))
  {
    match l
    case Work(w, o) =>
      if !s.workers[w].pc.Finish? {
        MoveOfSound(s, w, o);
        MoveAnswers(s, w, o);
        PerformKeepsCommands(s, MoveOf(s, w, o).effect);
      }
    case Bounce =>
      if RecordBounce(s.docs) != s.docs {
        BounceSound(s);
        PerformKeepsCommands(s, Commits(RecordBounce(s.docs), Transport, []));
      }
    case Foreign(key, command) =>
      forall i | 0 <= i < |s.history|
        ensures CommitRecorded(s.caseId, Next(s, l).docs.commands, s.history[i])
      {
        assert CommitRecorded(s.caseId, s.docs.commands, s.history[i]);
      }
      forall i | 0 <= i < |s.replies|
        ensures ReplyOk(s.caseId, Next(s, l).docs.commands, s.replies[i])
      {
        assert ReplyOk(s.caseId, s.docs.commands, s.replies[i]);
      }
    case _ =>
  }

  /** At most one commit is made under a key. */
  lemma OneCommitPerKey(s: State, i: nat, j: nat)
    requires HistoryInv(s) && CommandInv(s)
    requires i < |s.history| && j < |s.history|
    requires s.history[i].writer.Control? && s.history[j].writer.Control?
    requires s.history[i].writer.key == s.history[j].writer.key
    ensures i == j
  {
    assert CommitRecorded(s.caseId, s.docs.commands, s.history[i]);
    assert CommitRecorded(s.caseId, s.docs.commands, s.history[j]);
    IdentityKept(s.config, s.history, i);
    IdentityKept(s.config, s.history, j);
  }
}
