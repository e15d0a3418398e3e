/**
  Worked login sequences, and the expiry test as the code evaluates it set
  against the test it evidently means.
 */
module WaitlistScenarios {
  import opened WaitlistSpec
  import opened Waitlist

  const Standard: Player := Player(1, false, false, 1)
  const Premium: Player := Player(2, true, false, 1)

  /**
    A standard player queues on a full server, a premium player then goes
    ahead of the first, both retry as capacity grows, and both are admitted in
    priority order. Stored deadlines include the 15-second margin.
   */
  lemma QueueScenario()
    ensures Login(Queues([], []), Standard, 1000, 1, 1, AsWritten, 0)
            == Outcome(false, 1, Queues([], [Wait(21000, 1)]))
    ensures Login(Queues([], [Wait(21000, 1)]), Premium, 2000, 1, 1, AsWritten, 0)
            == Outcome(false, 1, Queues([Wait(22000, 2)], [Wait(21000, 1)]))
    ensures Locate([Wait(22000, 2)], [Wait(21000, 1)], Standard.guid).slot == 2
    ensures Login(Queues([Wait(22000, 2)], [Wait(21000, 1)]), Standard, 3000, 1, 2, AsWritten, 0)
            == Outcome(false, 2, Queues([Wait(22000, 2)], [Wait(23000, 1)]))
    ensures Login(Queues([Wait(22000, 2)], [Wait(23000, 1)]), Premium, 4000, 1, 3, AsWritten, 0)
            == Outcome(true, 1, Queues([], [Wait(23000, 1)]))
    ensures Login(Queues([], [Wait(23000, 1)]), Standard, 5000, 1, 3, AsWritten, 0)
            == Outcome(true, 1, Queues([], []))
  {
  }

  /** The same sequence driven through the queue object, reporting each attempt's result and slot. */
  method QueueObjectScenario() returns (admitted: seq<bool>, slots: seq<nat>)
    ensures admitted == [false, false, false, true, true]
    ensures slots == [1, 1, 2, 1, 1]
  {
    QueueScenario();
    var w := new WaitingList(AsWritten);
    var ok1, slot1 := w.ClientLogin(Standard, 0, 1000, 1, 1);
    assert w.State() == Queues([], [Wait(21000, 1)]);
    var ok2, slot2 := w.ClientLogin(Premium, 0, 2000, 1, 1);
    assert w.State() == Queues([Wait(22000, 2)], [Wait(21000, 1)]);
    var ok3, slot3 := w.ClientLogin(Standard, 0, 3000, 1, 2);
    assert w.State() == Queues([Wait(22000, 2)], [Wait(23000, 1)]);
    var ok4, slot4 := w.ClientLogin(Premium, 0, 4000, 1, 3);
    assert w.State() == Queues([], [Wait(23000, 1)]);
    var ok5, slot5 := w.ClientLogin(Standard, 0, 5000, 1, 3);
    assert w.State() == Queues([], []);
    admitted := [ok1, ok2, ok3, ok4, ok5];
    slots := [slot1, slot2, slot3, slot4, slot5];
  }

  /**
    As written, an entry whose deadline (1000) lies before the clock (2000)
    passes no expiry test: it stays at the head of the queue and the new
    player is ranked behind it.
   */
  lemma StaleEntrySurvivesAsWritten()
    ensures ExpiredIntended(1000, 2000) && !ExpiredAsWritten(1000, 2000)
    ensures Login(Queues([Wait(1000, 7)], []), Standard, 2000, 1, 1, AsWritten, 0)
            == Outcome(false, 2, Queues([Wait(1000, 7)], [Wait(22000, 1)]))
    ensures Login(Queues([Wait(1000, 7)], []), Standard, 2000, 1, 1, Intended, 0)
            == Outcome(false, 1, Queues([], [Wait(22000, 1)]))
  {
    assert (1000 - 2000) % SizeModulus == SizeModulus - 1000;
    assert Surviving([Wait(1000, 7)], 2000, AsWritten) == [Wait(1000, 7)];
    assert Surviving([Wait(1000, 7)], 2000, Intended) == [];
  }

  /** With the intended test, no entry whose deadline has been reached outlives a login attempt. */
  lemma LoginIntendedLeavesNoStale(q: Queues, p: Player, now: nat, online: nat, maxPlayers: nat, slotIn: nat)
    requires !Bypasses(p)
    ensures
      var o := Login(q, p, now, online, maxPlayers, Intended, slotIn);
      forall k :: 0 <= k < |All(o.queues)| ==> All(o.queues)[k].timeout > now
  {
    LoginLeavesNoExpired(q, p, now, online, maxPlayers, Intended, slotIn);
  }
}
