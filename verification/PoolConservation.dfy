/**
  Delayed messages when transfers overlap.  A transfer copies a record, sends the
  copy and then looks for the record to erase it; this module counts those three
  steps over a run, and says exactly when a message comes out twice.
*/
module PoolConservation {
  import opened MessageQueue
  import opened PoolMachine

  // What to count: the steps about one record, or about one message.
  datatype Key = Record(id: nat) | Message(payload: nat)

  predicate Matches(key: Key, e: Entry) {
    match key
    case Record(id) => e.id == id
    case Message(payload) => e.payload == payload
  }

  // Copies sent, records erased, and searches for a record that was gone.
  datatype Tally = Tally(sent: nat, erased: nat, missed: nat)

  predicate Sends(s: Pool, a: Action, key: Key) {
    a.SendDue? && Enabled(s, a) && Matches(key, s.transfers[a.t].e)
  }

  predicate Searches(s: Pool, a: Action, key: Key) {
    a.EraseDue? && Enabled(s, a) && Matches(key, s.transfers[a.t].e)
  }

  predicate Finds(s: Pool, a: Action)
    requires a.EraseDue? && Enabled(s, a)
  {
    Find(s.future, s.transfers[a.t].e.id) < |s.future|
  }

  /** The search of a transfer finds that another one has erased its record. */
  predicate Misses(s: Pool, a: Action) {
    a.EraseDue? && Enabled(s, a) && !Finds(s, a)
  }

  function Missed(s: Pool, a: Action): Entry
    requires Misses(s, a)
  {
    s.transfers[a.t].e
  }

  /** The steps of the first `i` actions of a run. */
  function Count(states: seq<Pool>, actions: seq<Action>, i: nat, key: Key): Tally
    requires |states| == |actions| + 1 && i <= |actions|
  {
    if i == 0 then Tally(0, 0, 0)
    else
      CountStep(states[i-1], actions[i-1], Count(states, actions, i - 1, key), key)
  }

  function CountStep(s: Pool, a: Action, n: Tally, key: Key): Tally {
    if Sends(s, a, key) then n.(sent := n.sent + 1)
    else if Searches(s, a, key) then
      if Finds(s, a) then n.(erased := n.erased + 1) else n.(missed := n.missed + 1)
    else n
  }

  /** The transfers that have sent a copy and not yet searched for the record. */
  function InFlight(transfers: map<nat, Transfer>, key: Key): set<nat> {
    set t | t in transfers && transfers[t].Sent? && Matches(key, transfers[t].e)
  }

  // ------------------------------------------------------------ accounting

  lemma OtherStepsLeaveFlight(s: Pool, a: Action, key: Key)
    requires Enabled(s, a) && !a.SendDue? && !a.EraseDue?
    ensures InFlight(Next(s, a).transfers, key) == InFlight(s.transfers, key)
    ensures Next(s, a).copied == s.copied && Next(s, a).erased == s.erased
  {
    if a.FindDue? {
      FindLeavesFlight(s, a.t, key);
    } else {
      OthersLeaveTransfers(s, a);
      hide Enabled, Next;
      if a.BeginTransfer? {
        FlightAfter(s.transfers, a.t, Looking(s.now, a.flush), key);
      }
    }
  }

  lemma FindLeavesFlight(s: Pool, t: nat, key: Key)
    requires Enabled(s, FindDue(t))
    ensures InFlight(Next(s, FindDue(t)).transfers, key) == InFlight(s.transfers, key)
    ensures Next(s, FindDue(t)).copied == s.copied && Next(s, FindDue(t)).erased == s.erased
  {
  }

  lemma FlightAfter(transfers: map<nat, Transfer>, t: nat, x: Transfer, key: Key)
    ensures InFlight(transfers[t := x], key)
         == if x.Sent? && Matches(key, x.e) then InFlight(transfers, key) + {t} else InFlight(transfers, key) - {t}
  {
  }

  lemma SendEntersFlight(s: Pool, a: Action, key: Key)
    requires Enabled(s, a) && a.SendDue?
    ensures |InFlight(Next(s, a).transfers, key)| == |InFlight(s.transfers, key)| + if Sends(s, a, key) then 1 else 0
  {
    var tr := s.transfers[a.t];
    FlightAfter(s.transfers, a.t, Sent(tr.now, tr.flush, tr.e), key);
    assert a.t !in InFlight(s.transfers, key);
  }

  lemma SearchLeavesFlight(s: Pool, a: Action, key: Key)
    requires Enabled(s, a) && a.EraseDue?
    ensures |InFlight(s.transfers, key)| == |InFlight(Next(s, a).transfers, key)| + if Searches(s, a, key) then 1 else 0
  {
    var tr := s.transfers[a.t];
    FlightAfter(s.transfers, a.t, Looking(tr.now, tr.flush), key);
    assert Next(s, a).transfers == s.transfers[a.t := Looking(tr.now, tr.flush)];
    assert a.t in InFlight(s.transfers, key) <==> Searches(s, a, key);
  }

  lemma StepIsAccountedFor(s: Pool, a: Action, n: Tally, key: Key)
    requires Enabled(s, a) && n.sent == n.erased + n.missed + |InFlight(s.transfers, key)|
    ensures var n' := CountStep(s, a, n, key); n'.sent == n'.erased + n'.missed + |InFlight(Next(s, a).transfers, key)|
  {
    hide Enabled, Next, InFlight;
    if a.SendDue? {
      SendEntersFlight(s, a, key);
    } else if a.EraseDue? {
      SearchLeavesFlight(s, a, key);
    } else {
      OtherStepsLeaveFlight(s, a, key);
    }
  }

  /** Every copy sent is accounted for by an erased record, a search that missed, or a transfer still to search. */
  lemma {:induction false} EveryCopyIsAccountedFor(states: seq<Pool>, actions: seq<Action>, i: nat, key: Key)
    requires IsRun(states, actions) && i <= |actions|
    ensures var n := Count(states, actions, i, key);
            n.sent == n.erased + n.missed + |InFlight(states[i].transfers, key)|
  {
    if i == 0 {
      assert InFlight(states[0].transfers, key) == {};
    } else {
      hide Enabled, Next, InFlight, CountStep;
      EveryCopyIsAccountedFor(states, actions, i - 1, key);
      StepIsAccountedFor(states[i-1], actions[i-1], Count(states, actions, i - 1, key), key);
    }
  }

  lemma EraseFindsItsRecord(s: Pool, a: Action)
    requires FutureOk(s) && a.EraseDue? && Enabled(s, a) && Finds(s, a)
    ensures s.future[Find(s.future, s.transfers[a.t].e.id)] == s.transfers[a.t].e
  {
    assert TransferOk(s, s.transfers[a.t]);
  }

  lemma StepIsObserved(s: Pool, a: Action, payload: nat)
    requires FutureOk(s) && Enabled(s, a)
    ensures Next(s, a).copied[payload] == s.copied[payload] + if Sends(s, a, Message(payload)) then 1 else 0
    ensures Next(s, a).erased[payload]
         == s.erased[payload] + if Searches(s, a, Message(payload)) && Finds(s, a) then 1 else 0
  {
    if a.EraseDue? {
      if Finds(s, a) {
        EraseFindsItsRecord(s, a);
      }
    } else if !a.SendDue? {
      OtherStepsLeaveFlight(s, a, Message(payload));
    }
  }

  /** The observations `copied` and `erased` are these counts. */
  lemma {:induction false} ObservedIsCounted(states: seq<Pool>, actions: seq<Action>, i: nat, payload: nat)
    requires IsRun(states, actions) && i <= |actions|
    ensures var n := Count(states, actions, i, Message(payload));
            states[i].copied[payload] == n.sent && states[i].erased[payload] == n.erased
  {
    if i > 0 {
      ObservedIsCounted(states, actions, i - 1, payload);
      RunKeeps(states, actions, i - 1);
      StepIsObserved(states[i-1], actions[i-1], payload);
    }
  }

  /**
    In every run, whatever transfers overlap: a message is there as often as it was
    accepted, once more for every search of a transfer that missed, and once more for
    every transfer between sending it and searching for its record.
  */
  lemma MessageIsThere(states: seq<Pool>, actions: seq<Action>, i: nat, payload: nat)
    requires IsRun(states, actions) && i <= |actions|
    ensures Accounted(states[i])[payload]
         == states[i].accepted[payload] + Count(states, actions, i, Message(payload)).missed + |InFlight(states[i].transfers, Message(payload))|
  {
    RunKeeps(states, actions, i);
    var s := states[i];
    EveryCopyIsAccountedFor(states, actions, i, Message(payload));
    ObservedIsCounted(states, actions, i, payload);
    assert Payloads(s.future) + Payloads(s.queue) + (s.finished + s.killed + s.erased) == Accounted(s) + s.erased;
    assert (Accounted(s) + s.erased)[payload] == (s.accepted + s.copied)[payload];
  }

  /** No accepted message is ever lost, overlapping transfers included. */
  lemma NothingIsLost(states: seq<Pool>, actions: seq<Action>, i: nat)
    requires IsRun(states, actions) && i <= |actions|
    ensures states[i].accepted <= Accounted(states[i])
  {
    forall payload: nat ensures states[i].accepted[payload] <= Accounted(states[i])[payload] {
      MessageIsThere(states, actions, i, payload);
    }
  }

  // ------------------------------------------------------- one record's life

  ghost predicate Present(s: Pool, id: nat) {
    exists e :: e in s.future && e.id == id
  }

  /** A record is erased at most once, is there until it is, and only then can a search miss it. */
  ghost predicate RecordOk(s: Pool, id: nat, n: Tally) {
    && n.erased <= 1
    && (n.erased == 1 ==> !Present(s, id) && id < s.nextId)
    && (n.missed > 0 ==> n.erased == 1)
    && (forall t :: t in s.transfers && !s.transfers[t].Looking? && s.transfers[t].e.id == id && n.erased == 0 ==> Present(s, id))
  }

  lemma FindKeepsRecord(s: Pool, a: Action, id: nat, n: Tally)
    requires RecordOk(s, id, n) && Enabled(s, a) && a.FindDue?
    ensures RecordOk(Next(s, a), id, n)
  {
    assert Next(s, a).future == s.future && Next(s, a).nextId == s.nextId;
    assert Present(Next(s, a), id) <==> Present(s, id);
  }

  lemma SendKeepsRecord(s: Pool, a: Action, id: nat, n: Tally)
    requires RecordOk(s, id, n) && Enabled(s, a) && a.SendDue?
    ensures RecordOk(Next(s, a), id, n)
  {
    assert Next(s, a).future == s.future;
    assert Present(Next(s, a), id) <==> Present(s, id);
  }

  lemma OtherStepsKeepRecord(s: Pool, a: Action, id: nat, n: Tally)
    requires RecordOk(s, id, n) && Enabled(s, a) && !a.FindDue? && !a.SendDue? && !a.EraseDue?
    ensures RecordOk(Next(s, a), id, n)
  {
    OthersLeaveTransfers(s, a);
    OthersKeepPresent(s, a, id);
    hide Enabled, Next, Present;
  }

  lemma OthersKeepPresent(s: Pool, a: Action, id: nat)
    requires Enabled(s, a) && !a.FindDue? && !a.SendDue? && !a.EraseDue?
    ensures Next(s, a).nextId >= s.nextId && (Present(s, id) ==> Present(Next(s, a), id))
    ensures id < s.nextId && Present(Next(s, a), id) ==> Present(s, id)
  {
    hide Enabled, Insert, StartWorker, Survivors, Killed;
    assert a.SendDelayed? || Next(s, a).future == s.future;
  }

  lemma PresentIffFound(s: Pool, id: nat)
    ensures Present(s, id) <==> Find(s.future, id) < |s.future|
  {
    if Present(s, id) {
      var e :| e in s.future && e.id == id;
      var j :| 0 <= j < |s.future| && s.future[j] == e;
    }
  }

  lemma EraseKeepsPresent(s: Pool, a: Action, id: nat)
    requires FutureOk(s) && a.EraseDue? && Enabled(s, a)
    ensures Present(Next(s, a), id) <==> Present(s, id) && !(s.transfers[a.t].e.id == id && Finds(s, a))
  {
    if Finds(s, a) {
      var k := Find(s.future, s.transfers[a.t].e.id);
      RemoveMembers(s.future, k);
    }
  }

  lemma SearchKeepsRecord(s: Pool, a: Action, id: nat, n: Tally)
    requires Invariant(s) && RecordOk(s, id, n) && a.EraseDue? && Enabled(s, a)
    ensures var mine := s.transfers[a.t].e.id == id;
            RecordOk(Next(s, a), id,
                     if !mine then n else if Finds(s, a) then n.(erased := n.erased + 1) else n.(missed := n.missed + 1))
  {
    assert TransferOk(s, s.transfers[a.t]);
    PresentIffFound(s, s.transfers[a.t].e.id);
    EraseKeepsPresent(s, a, id);
    assert Next(s, a).nextId == s.nextId;
    hide Present, Invariant, TransferOk, Remove;
  }

  lemma {:induction false} RecordsStayOk(states: seq<Pool>, actions: seq<Action>, i: nat, id: nat)
    requires IsRun(states, actions) && i <= |actions|
    ensures RecordOk(states[i], id, Count(states, actions, i, Record(id)))
  {
    if i > 0 {
      hide Enabled, Next, Invariant, RecordOk, CountStep;
      RecordsStayOk(states, actions, i - 1, id);
      RunKeeps(states, actions, i - 1);
      StepKeepsRecord(states[i-1], actions[i-1], id, Count(states, actions, i - 1, Record(id)));
    }
  }

  lemma StepKeepsRecord(s: Pool, a: Action, id: nat, n: Tally)
    requires Invariant(s) && RecordOk(s, id, n) && Enabled(s, a)
    ensures RecordOk(Next(s, a), id, CountStep(s, a, n, Record(id)))
  {
    hide Enabled, Next, Invariant, Finds;
    if a.EraseDue? {
      SearchKeepsRecord(s, a, id, n);
    } else if a.FindDue? {
      FindKeepsRecord(s, a, id, n);
    } else if a.SendDue? {
      SendOnlyCounts(s, id, n);
      SendKeepsRecord(s, a, id, CountStep(s, a, n, Record(id)));
    } else {
      OtherStepsKeepRecord(s, a, id, n);
    }
  }

  lemma SendOnlyCounts(s: Pool, id: nat, n: Tally)
    requires RecordOk(s, id, n)
    ensures RecordOk(s, id, n.(sent := n.sent + 1))
  {
  }

  // ------------------------------------------------------------- theorems

  /** No transfer sent a record that another one sent. */
  ghost predicate SentOnce(states: seq<Pool>, actions: seq<Action>, i: nat)
    requires |states| == |actions| + 1 && i <= |actions|
  {
    forall id :: Count(states, actions, i, Record(id)).sent <= 1
  }

  ghost predicate NeverMissed(states: seq<Pool>, actions: seq<Action>, i: nat)
    requires |states| == |actions| + 1 && i <= |actions|
  {
    forall j :: 0 <= j < i ==> !Misses(states[j], actions[j])
  }

  lemma {:induction false} MissIsCounted(states: seq<Pool>, actions: seq<Action>, i: nat, key: Key, j: nat)
    requires |states| == |actions| + 1 && j < i <= |actions|
    requires Misses(states[j], actions[j]) && Matches(key, Missed(states[j], actions[j]))
    ensures Count(states, actions, i, key).missed > 0
  {
    if j < i - 1 {
      MissIsCounted(states, actions, i - 1, key, j);
    }
  }

  lemma {:induction false} CountedMiss(states: seq<Pool>, actions: seq<Action>, i: nat, key: Key)
    requires |states| == |actions| + 1 && i <= |actions|
    requires Count(states, actions, i, key).missed > 0
    ensures exists j :: 0 <= j < i && Misses(states[j], actions[j])
  {
    if Misses(states[i-1], actions[i-1]) {
    } else {
      CountedMiss(states, actions, i - 1, key);
    }
  }

  lemma NoneInFlight(key: Key)
    ensures InFlight(map[], key) == {}
  {
  }

  lemma RecordMissedIffSentTwice(states: seq<Pool>, actions: seq<Action>, i: nat, id: nat)
    requires IsRun(states, actions) && i <= |actions| && states[i].transfers == map[]
    ensures Count(states, actions, i, Record(id)).missed > 0 <==> Count(states, actions, i, Record(id)).sent > 1
  {
    EveryCopyIsAccountedFor(states, actions, i, Record(id));
    RecordsStayOk(states, actions, i, id);
    NoneInFlight(Record(id));
  }

  lemma SentTwiceMeansMiss(states: seq<Pool>, actions: seq<Action>, i: nat)
    requires IsRun(states, actions) && i <= |actions| && states[i].transfers == map[]
    requires !SentOnce(states, actions, i)
    ensures !NeverMissed(states, actions, i)
  {
    var id: nat :| Count(states, actions, i, Record(id)).sent > 1;
    RecordMissedIffSentTwice(states, actions, i, id);
    CountedMiss(states, actions, i, Record(id));
  }

  /** Once no transfer is under way, a search missed exactly when a record was sent more than once. */
  lemma MissIffSentTwice(states: seq<Pool>, actions: seq<Action>, i: nat)
    requires IsRun(states, actions) && i <= |actions| && states[i].transfers == map[]
    ensures NeverMissed(states, actions, i) <==> SentOnce(states, actions, i)
  {
    hide Count, Enabled, Next;
    if !SentOnce(states, actions, i) {
      SentTwiceMeansMiss(states, actions, i);
    }
    if !NeverMissed(states, actions, i) {
      var j: nat :| j < i && Misses(states[j], actions[j]);
      var id := Missed(states[j], actions[j]).id;
      MissIsCounted(states, actions, i, Record(id), j);
      RecordMissedIffSentTwice(states, actions, i, id);
    }
  }

  /**
    When no transfer is under way, every accepted message is in exactly one place,
    future queue, waiting, in process, finished or killed, exactly when no transfer's
    search for its record missed, that is, when no two transfers sent one record.
  */
  lemma ConservedIffSentOnce(states: seq<Pool>, actions: seq<Action>, i: nat)
    requires IsRun(states, actions) && i <= |actions| && states[i].transfers == map[]
    ensures Accounted(states[i]) == states[i].accepted <==> NeverMissed(states, actions, i)
    ensures Accounted(states[i]) == states[i].accepted <==> SentOnce(states, actions, i)
  {
    hide Count, Misses, InFlight, Accounted, Enabled, Next;
    MissIffSentTwice(states, actions, i);
    forall payload: nat
      ensures Accounted(states[i])[payload] == states[i].accepted[payload] + Count(states, actions, i, Message(payload)).missed
    {
      MessageIsThere(states, actions, i, payload);
      NoneInFlight(Message(payload));
    }
    if NeverMissed(states, actions, i) {
      forall payload: nat ensures Accounted(states[i])[payload] == states[i].accepted[payload] {
        if Count(states, actions, i, Message(payload)).missed > 0 {
          CountedMiss(states, actions, i, Message(payload));
        }
      }
    } else {
      var j: nat :| j < i && Misses(states[j], actions[j]);
      var payload := Missed(states[j], actions[j]).payload;
      MissIsCounted(states, actions, i, Message(payload), j);
      assert Accounted(states[i])[payload] > states[i].accepted[payload];
    }
  }
}
