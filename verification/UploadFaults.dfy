/**
  What an upload is answered from outside, and what it then returns.

  The user may ask for an abort, a seek or a read may fail, the server may refuse, and
  workers may fail at a part: an `Environment` gives all these answers, each to the
  question with its number.  A run that conforms to it returns false exactly when one of
  the answers given was a fault, or a part failed more often than it may be retried.
*/
module UploadFaults {
  import opened MultipartUpload

  type Length = n: nat | n >= 1 witness 1

  /** What a worker does with the message at place `k`. */
  datatype WorkerAct = Pop(k: nat) | End(k: nat, failed: bool)

  /** The answers to the questions with each number, and what the workers do in each of their turns. */
  datatype Environment = Environment(
    initiates: bool,
    completes: bool,
    aborted: nat -> bool,
    seekFails: nat -> bool,
    readFails: nat -> bool,
    length: nat -> Length,
    queued: nat -> nat,
    work: nat -> seq<WorkerAct>)

  /** How often the abort flag, a seek, a read and the length of the pool's queue have been asked for. */
  datatype Asked = Asked(aborts: nat, seeks: nat, readings: nat, looks: nat)

  const NOTHING := Asked(0, 0, 0, 0)

  function Ask(n: Asked, a: Action): Asked {
    match a
    case Enough(_) => n.(looks := n.looks + 1)
    case AbortScan(_) => n.(looks := n.looks + 1, aborts := n.aborts + 1)
    case StartPart(_, _) => n.(looks := n.looks + 1, aborts := n.aborts + 1, seeks := n.seeks + 1)
    case FillRead(_) => n.(readings := n.readings + 1)
    case TopUpRead(_) => n.(readings := n.readings + 1)
    case ReadFails => n.(readings := n.readings + 1)
    case Wake => n.(aborts := n.aborts + 1)
    case AbortWait => n.(aborts := n.aborts + 1)
    case OpenTopUp(_) => n.(seeks := n.seeks + 1)
    case _ => n
  }

  /** A part is started after a look at the pool's queue and at the abort flag, and with a seek; each read and each wait asks once. */
  lemma AskMeaning(n: Asked, a: Action)
    ensures Ask(n, a).looks == n.looks + (if a.Enough? || a.AbortScan? || a.StartPart? then 1 else 0)
    ensures Ask(n, a).aborts == n.aborts + (if a.AbortScan? || a.StartPart? || a.Wake? || a.AbortWait? then 1 else 0)
    ensures Ask(n, a).seeks == n.seeks + (if a.StartPart? || a.OpenTopUp? then 1 else 0)
    ensures Ask(n, a).readings == n.readings + (if a.FillRead? || a.TopUpRead? || a.ReadFails? then 1 else 0)
  {
  }

  function AskedBy(actions: seq<Action>): Asked {
    if actions == [] then NOTHING else Ask(AskedBy(actions[..|actions|-1]), actions[|actions|-1])
  }

  function Min(a: nat, b: nat): nat {
    if a < b then a else b
  }

  /** The pool's queue holds at least the messages that are not done. */
  function QueueLength(env: Environment, look: nat, pending: seq<Message>): nat {
    if env.queued(look) < Unfinished(pending) then Unfinished(pending) else env.queued(look)
  }

  /** A read returns what the environment has, cut to the buffer and to what is left of the part. */
  function ReadLength(c: Config, env: Environment, read: nat, left: nat): nat {
    Min(env.length(read), Min(c.bufSize, left))
  }

  /** The step is what the environment's answers make of it. */
  predicate Answers(c: Config, env: Environment, s: State, a: Action, n: Asked)
    requires Enabled(c, s, a)
  {
    match a
    case Initiate(ok) => ok == env.initiates
    case Complete(ok) => ok == env.completes
    case Enough(queued) => queued == QueueLength(env, n.looks, s.pending)
    case AbortScan(queued) => queued == QueueLength(env, n.looks, s.pending) && env.aborted(n.aborts)
    case StartPart(queued, sought) =>
      queued == QueueLength(env, n.looks, s.pending) && !env.aborted(n.aborts) && sought == !env.seekFails(n.seeks)
    case FillRead(m) => !env.readFails(n.readings) && m == ReadLength(c, env, n.readings, s.pc.remaining)
    case TopUpRead(m) =>
      var j := s.pending[s.pc.k].part;
      !env.readFails(n.readings) && s.parts[j].cursor < c.plan[j].size && m == ReadLength(c, env, n.readings, c.plan[j].size - s.parts[j].cursor)
    case ReadFails => env.readFails(n.readings)
    case Wake => !env.aborted(n.aborts)
    case AbortWait => env.aborted(n.aborts)
    case OpenTopUp(sought) => sought == !env.seekFails(n.seeks)
    case _ => true
  }

  ghost predicate Conforms(c: Config, env: Environment, states: seq<State>, actions: seq<Action>) {
    && |states| == |actions| + 1
    && forall i :: 0 <= i < |actions| ==>
         Enabled(c, states[i], actions[i]) && Answers(c, env, states[i], actions[i], AskedBy(actions[..i]))
  }

  /** None of the answers given was a fault. */
  ghost predicate NoFault(env: Environment, n: Asked) {
    && (forall t: nat :: t < n.aborts ==> !env.aborted(t))
    && (forall t: nat :: t < n.seeks ==> !env.seekFails(t))
    && (forall t: nat :: t < n.readings ==> !env.readFails(t))
  }

  /** A part whose last attempt failed has no retries left. */
  predicate OutOfRetries(c: Config, parts: seq<PartEntry>, pending: seq<Message>) {
    exists k :: 0 <= k < |pending| && pending[k].done && pending[k].error
                && pending[k].part < |parts| && parts[pending[k].part].retryNum >= c.maxRetries
  }

  // ------------------------------------------------------ true or false

  /** As long as the upload goes on, nothing has gone wrong. */
  ghost predicate SoFar(c: Config, env: Environment, s: State, n: Asked) {
    match s.pc
    case Start => NoFault(env, n)
    case Returned(ok) =>
      && (ok <==> env.initiates && NoFault(env, n) && env.completes && !OutOfRetries(c, s.parts, s.pending))
      && (s.calls == [Initiated(false)] <==> !env.initiates)
      && (s.calls == [Initiated(true), Completed(false), Aborted] <==>
            env.initiates && NoFault(env, n) && !env.completes && !OutOfRetries(c, s.parts, s.pending))
    case _ => env.initiates && NoFault(env, n)
  }

  lemma NobodyPending(c: Config, s: State)
    requires Invariant(c, s)
    ensures s.pending != [] ==> !AllComplete(s)
  {
    if s.pending != [] {
      assert AttemptOk(c, s.parts[s.pending[0].part], s.pending[0]);
      assert !s.parts[s.pending[0].part].complete;
    }
  }

  lemma CompleteSoFar(c: Config, env: Environment, s: State, ok: bool, n: Asked)
    requires Invariant(c, s) && Enabled(c, s, Complete(ok)) && Answers(c, env, s, Complete(ok), n) && SoFar(c, env, s, n)
    ensures SoFar(c, env, Next(c, s, Complete(ok)), n)
  {
    NobodyPending(c, s);
    assert s.calls == [Initiated(true)];
    assert Next(c, s, Complete(ok)).calls == if ok then [Initiated(true), Completed(true)] else [Initiated(true), Completed(false), Aborted];
  }

  lemma FaultSoFar(c: Config, env: Environment, s: State, s': State, n: Asked)
    requires s.calls == [Initiated(true)] && env.initiates
    requires s'.calls == Abort(s).calls && s'.pc == Returned(false) && (!NoFault(env, n) || OutOfRetries(c, s'.parts, s'.pending))
    ensures SoFar(c, env, s', n)
  {
    assert s'.calls == [Initiated(true), Aborted];
  }

  /** The steps that end the upload on a fault. */
  predicate IsFault(c: Config, s: State, a: Action)
    requires Enabled(c, s, a)
  {
    a.AbortScan? || a.AbortWait? || a.ReadFails? || (a.StartPart? && !a.sought) || (a.OpenTopUp? && !a.sought)
    || (a.ReapDone? && DoReapDone(c, s).pc.Returned?)
  }

  lemma FaultStepSoFar(c: Config, env: Environment, s: State, a: Action, n: Asked)
    requires Invariant(c, s) && Enabled(c, s, a) && Answers(c, env, s, a, n) && SoFar(c, env, s, n) && IsFault(c, s, a)
    ensures SoFar(c, env, Next(c, s, a), Ask(n, a))
  {
    var s', n' := Next(c, s, a), Ask(n, a);
    assert s.calls == [Initiated(true)];
    if a.AbortScan? || a.AbortWait? {
      assert env.aborted(n.aborts) && n.aborts < n'.aborts;
    } else if a.ReadFails? {
      assert env.readFails(n.readings) && n.readings < n'.readings;
    } else if a.ReapDone? {
      assert s'.pending[s.pc.k].error;
    } else {
      assert env.seekFails(n.seeks) && n.seeks < n'.seeks;
    }
    FaultSoFar(c, env, s, s', n');
  }

  lemma GoesOn(c: Config, s: State, a: Action)
    requires Enabled(c, s, a) && !a.Initiate? && !a.Complete? && !IsFault(c, s, a)
    ensures !s.pc.Returned? && !Next(c, s, a).pc.Returned?
    ensures s.pc.Start? <==> Next(c, s, a).pc.Start?
  {
  }

  lemma AnswersAreGood(c: Config, env: Environment, s: State, a: Action, n: Asked)
    requires Enabled(c, s, a) && Answers(c, env, s, a, n) && !IsFault(c, s, a) && NoFault(env, n)
    ensures NoFault(env, Ask(n, a))
  {
  }

  lemma StepSoFar(c: Config, env: Environment, s: State, a: Action, n: Asked)
    requires Invariant(c, s) && Enabled(c, s, a) && Answers(c, env, s, a, n) && SoFar(c, env, s, n)
    ensures SoFar(c, env, Next(c, s, a), Ask(n, a))
  {
    if a.Initiate? {
      assert s.calls == [] && s.pending == [];
    } else if a.Complete? {
      CompleteSoFar(c, env, s, a.ok, n);
    } else if IsFault(c, s, a) {
      FaultStepSoFar(c, env, s, a, n);
    } else {
      GoesOn(c, s, a);
      hide Enabled, Invariant, Next, OutOfRetries;
      AnswersAreGood(c, env, s, a, n);
    }
  }

  lemma AskedByOneMore(actions: seq<Action>, i: nat)
    requires 0 < i <= |actions|
    ensures AskedBy(actions[..i]) == Ask(AskedBy(actions[..i-1]), actions[i-1])
  {
    assert actions[..i][..i-1] == actions[..i-1];
  }

  lemma {:induction false} RunSoFar(c: Config, env: Environment, states: seq<State>, actions: seq<Action>, i: nat)
    requires c.Valid() && IsRun(c, states, actions) && Conforms(c, env, states, actions) && i < |states|
    ensures SoFar(c, env, states[i], AskedBy(actions[..i]))
  {
    if i > 0 {
      hide Enabled, Next, Invariant, Answers, SoFar;
      RunSoFar(c, env, states, actions, i - 1);
      RunKeeps(c, states, actions, i - 1);
      AskedByOneMore(actions, i);
      hide AskedBy, IsRun;
      StepSoFar(c, env, states[i-1], actions[i-1], AskedBy(actions[..i-1]));
    }
  }

  /**
    The upload returns true exactly when the server accepted its start and its end, no
    question was answered by a fault, and no part ran out of retries.  Refusals show in
    the calls made.
  */
  lemma ReturnsTrueIff(c: Config, env: Environment, states: seq<State>, actions: seq<Action>, i: nat)
    requires c.Valid() && IsRun(c, states, actions) && Conforms(c, env, states, actions) && i < |states|
    requires states[i].pc.Returned?
    ensures var s, n := states[i], AskedBy(actions[..i]);
            && (s.pc.ok <==> env.initiates && NoFault(env, n) && env.completes && !OutOfRetries(c, s.parts, s.pending))
            && (s.calls == [Initiated(false)] <==> !env.initiates)
            && (s.calls == [Initiated(true), Completed(false), Aborted] <==>
                  env.initiates && NoFault(env, n) && !env.completes && !OutOfRetries(c, s.parts, s.pending))
  {
    RunSoFar(c, env, states, actions, i);
  }

  // ------------------------------------------------------ failed attempts

  /** Attempts at part `j` that a worker reported as failed in the first `i` steps. */
  ghost function FailedAttempts(states: seq<State>, actions: seq<Action>, i: nat, j: nat): nat
    requires i <= |actions| < |states|
  {
    if i == 0 then 0 else FailedAttempts(states, actions, i - 1, j) + (if FailsAt(states[i-1], actions[i-1], j) then 1 else 0)
  }

  predicate FailsAt(s: State, a: Action, j: nat) {
    a.WorkerFail? && a.k < |s.pending| && s.pending[a.k].part == j
  }

  ghost predicate FailedNow(s: State, j: nat) {
    exists k :: 0 <= k < |s.pending| && s.pending[k].part == j && s.pending[k].done && s.pending[k].error
  }

  ghost function Failures(s: State, j: nat): nat
    requires j < |s.parts|
  {
    s.parts[j].retryNum + (if FailedNow(s, j) then 1 else 0)
  }

  lemma FailedNowUpdate(s: State, k: nat, m: Message, j: nat)
    requires k < |s.pending| && m.part == s.pending[k].part
    requires forall i, l :: 0 <= i < l < |s.pending| ==> s.pending[i].part != s.pending[l].part
    ensures FailedNow(s.(pending := s.pending[k := m]), j)
            <==> if j == m.part then m.done && m.error else FailedNow(s, j)
  {
    var s' := s.(pending := s.pending[k := m]);
    if FailedNow(s, j) {
      var i :| 0 <= i < |s.pending| && s.pending[i].part == j && s.pending[i].done && s.pending[i].error;
      assert i != k ==> s'.pending[i] == s.pending[i];
    }
    if m.done && m.error {
      assert s'.pending[k] == m;
    }
  }

  lemma FailedNowErase(s: State, k: nat, j: nat)
    requires k < |s.pending|
    requires forall i, l :: 0 <= i < l < |s.pending| ==> s.pending[i].part != s.pending[l].part
    ensures FailedNow(s.(pending := s.pending[..k] + s.pending[k+1..]), j) <==> j != s.pending[k].part && FailedNow(s, j)
  {
    var s' := s.(pending := s.pending[..k] + s.pending[k+1..]);
    forall l | 0 <= l < |s'.pending| ensures s'.pending[l] == s.pending[if l < k then l else l + 1] {
    }
    if FailedNow(s, j) && j != s.pending[k].part {
      var i :| 0 <= i < |s.pending| && s.pending[i].part == j && s.pending[i].done && s.pending[i].error;
      assert s'.pending[if i < k then i else i - 1] == s.pending[i];
    }
  }

  lemma FailedNowAppend(s: State, m: Message, j: nat)
    requires !m.done
    ensures FailedNow(s.(pending := s.pending + [m]), j) <==> FailedNow(s, j)
  {
    var s' := s.(pending := s.pending + [m]);
    if FailedNow(s, j) {
      var i :| 0 <= i < |s.pending| && s.pending[i].part == j && s.pending[i].done && s.pending[i].error;
      assert s'.pending[i] == s.pending[i];
    }
  }

  lemma SamePending(s: State, s': State, j: nat)
    requires s'.pending == s.pending
    ensures FailedNow(s', j) <==> FailedNow(s, j)
  {
  }

  lemma StepCountsFailures(c: Config, s: State, a: Action, j: nat)
    requires Invariant(c, s) && Enabled(c, s, a) && j < |c.plan|
    ensures |Next(c, s, a).parts| == |s.parts| == |c.plan|
    ensures Failures(Next(c, s, a), j) == Failures(s, j) + (if FailsAt(s, a, j) then 1 else 0)
  {
    var s' := Next(c, s, a);
    if a.WorkerPop? || a.WorkerOk? || a.WorkerFail? {
      WorkerCountsFailures(c, s, a, j);
    } else if a.ReapDone? {
      ReapCountsFailures(c, s, j);
    } else if a.StartPart? {
      FailedNowAppend(s, s'.pending[|s.pending|], j);
      SamePending(s.(pending := s'.pending), s', j);
    } else if a.SendPart? {
      SendCountsFailures(c, s, j);
    } else {
      OthersCountNothing(c, s, a, j);
      SamePending(s, s', j);
    }
  }

  lemma OthersCountNothing(c: Config, s: State, a: Action, j: nat)
    requires Enabled(c, s, a) && j < |c.plan|
    requires !a.WorkerPop? && !a.WorkerOk? && !a.WorkerFail? && !a.ReapDone? && !a.StartPart? && !a.SendPart?
    ensures var s' := Next(c, s, a);
            s'.pending == s.pending && |s'.parts| == |s.parts| && s'.parts[j].retryNum == s.parts[j].retryNum
  {
    hide Unfinished;
  }

  lemma SendCountsFailures(c: Config, s: State, j: nat)
    requires Invariant(c, s) && Enabled(c, s, SendPart) && j < |c.plan|
    ensures Failures(Next(c, s, SendPart), j) == Failures(s, j)
  {
    var k := |s.pending| - 1;
    var m := s.pending[k].(sent := true);
    assert AttemptOk(c, s.parts[s.pending[k].part], s.pending[k]) && !s.pending[k].sent;
    hide AttemptOk, PartsOk, PcOk;
    FailedNowUpdate(s, k, m, j);
    FailedNowUpdate(s, k, s.pending[k], j);
    assert s.pending[k := s.pending[k]] == s.pending;
    SamePending(s.(pending := s.pending[k := m]), Next(c, s, SendPart), j);
  }

  lemma WorkerCountsFailures(c: Config, s: State, a: Action, j: nat)
    requires Invariant(c, s) && Enabled(c, s, a) && j < |c.plan| && (a.WorkerPop? || a.WorkerOk? || a.WorkerFail?)
    ensures |Next(c, s, a).parts| == |s.parts|
    ensures Failures(Next(c, s, a), j) == Failures(s, j) + (if FailsAt(s, a, j) then 1 else 0)
  {
    hide AttemptOk, PartsOk, PcOk;
    var s' := Next(c, s, a);
    var m := s'.pending[a.k];
    assert s'.pending == s.pending[a.k := m];
    FailedNowUpdate(s, a.k, m, j);
    FailedNowUpdate(s, a.k, s.pending[a.k], j);
    assert s.pending[a.k := s.pending[a.k]] == s.pending;
    SamePending(s.(pending := s'.pending), s', j);
  }

  lemma ReapCountsFailures(c: Config, s: State, j: nat)
    requires Invariant(c, s) && Enabled(c, s, ReapDone) && j < |c.plan|
    ensures |DoReapDone(c, s).parts| == |s.parts|
    ensures Failures(DoReapDone(c, s), j) == Failures(s, j)
  {
    hide AttemptOk, PartsOk, PcOk;
    var s', k := DoReapDone(c, s), s.pc.k;
    if s'.pc.Returned? {
      SamePending(s, s', j);
    } else {
      FailedNowErase(s, k, j);
      SamePending(s.(pending := s.pending[..k] + s.pending[k+1..]), s', j);
      FailedNowUpdate(s, k, s.pending[k], j);
      assert s.pending[k := s.pending[k]] == s.pending;
    }
  }

  /** A part's retries, and its failed message if it has one, are its failed attempts. */
  lemma {:induction false} AttemptsAreCounted(c: Config, states: seq<State>, actions: seq<Action>, i: nat, j: nat)
    requires c.Valid() && IsRun(c, states, actions) && i < |states| && j < |c.plan|
    ensures |states[i].parts| == |c.plan| && Failures(states[i], j) == FailedAttempts(states, actions, i, j)
  {
    if i == 0 {
      assert !FailedNow(states[0], j);
    } else {
      hide Enabled, Next, Invariant, Failures, FailsAt;
      AttemptsAreCounted(c, states, actions, i - 1, j);
      RunKeeps(c, states, actions, i - 1);
      StepCountsFailures(c, states[i-1], actions[i-1], j);
    }
  }

  lemma OutOfRetriesMeansFailures(c: Config, s: State) returns (j: nat)
    requires Invariant(c, s) && OutOfRetries(c, s.parts, s.pending)
    ensures |s.parts| == |c.plan| && j < |c.plan| && Failures(s, j) > c.maxRetries
  {
    var k :| 0 <= k < |s.pending| && s.pending[k].done && s.pending[k].error && s.parts[s.pending[k].part].retryNum >= c.maxRetries;
    j := s.pending[k].part;
    assert FailedNow(s, j);
  }

  lemma FailuresMeanOutOfRetries(c: Config, s: State, j: nat)
    requires Invariant(c, s) && j < |s.parts| && Failures(s, j) > c.maxRetries
    ensures OutOfRetries(c, s.parts, s.pending)
  {
    assert PartOk(c, j, s.parts[j]);
    var k :| 0 <= k < |s.pending| && s.pending[k].part == j && s.pending[k].done && s.pending[k].error;
  }

  /** Retries run out exactly when some part has failed more often than it may be retried. */
  lemma OutOfRetriesIff(c: Config, states: seq<State>, actions: seq<Action>, i: nat)
    requires c.Valid() && IsRun(c, states, actions) && i < |states|
    ensures OutOfRetries(c, states[i].parts, states[i].pending) <==> exists j: nat :: j < |c.plan| && FailedAttempts(states, actions, i, j) > c.maxRetries
  {
    hide Enabled, Next, Invariant, OutOfRetries, Failures, FailedAttempts;
    RunKeeps(c, states, actions, i);
    if OutOfRetries(c, states[i].parts, states[i].pending) {
      var j := OutOfRetriesMeansFailures(c, states[i]);
      AttemptsAreCounted(c, states, actions, i, j);
    }
    if j: nat :| j < |c.plan| && FailedAttempts(states, actions, i, j) > c.maxRetries {
      AttemptsAreCounted(c, states, actions, i, j);
      FailuresMeanOutOfRetries(c, states[i], j);
    }
  }

  function WorkerFails(actions: seq<Action>): nat {
    if actions == [] then 0 else WorkerFails(actions[..|actions|-1]) + (if actions[|actions|-1].WorkerFail? then 1 else 0)
  }

  lemma {:induction false} AttemptsAreFails(states: seq<State>, actions: seq<Action>, i: nat, j: nat)
    requires i <= |actions| < |states|
    ensures FailedAttempts(states, actions, i, j) <= WorkerFails(actions[..i])
  {
    if i > 0 {
      AttemptsAreFails(states, actions, i - 1, j);
      assert actions[..i][..i-1] == actions[..i-1];
    }
  }

  // ------------------------------------------------------- the workers' turns

  function AsAction(act: WorkerAct): Action {
    match act
    case Pop(k) => WorkerPop(k)
    case End(k, failed) => if failed then WorkerFail(k) else WorkerOk(k)
  }

  /** The workers do what they can of their turn. */
  function Worked(c: Config, s: State, acts: seq<WorkerAct>): State {
    if acts == [] then s
    else
      var s', a := Worked(c, s, acts[..|acts|-1]), AsAction(acts[|acts|-1]);
      if Enabled(c, s', a) then Next(c, s', a) else s'
  }

  function FailsIn(acts: seq<WorkerAct>): nat {
    if acts == [] then 0
    else FailsIn(acts[..|acts|-1]) + (if acts[|acts|-1].End? && acts[|acts|-1].failed then 1 else 0)
  }

  /** The failures workers may report in the first `turns` of their turns. */
  function Fails(env: Environment, turns: nat): nat {
    if turns == 0 then 0 else Fails(env, turns - 1) + FailsIn(env.work(turns - 1))
  }
}
