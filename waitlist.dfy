/**
  The login wait queue as the server runs it: the cleanup and lookup loops,
  and the queue object whose two lists every login attempt updates in place.
  Each method is proved against the specification in WaitlistSpec.
 */
module Waitlist {
  import opened WaitlistSpec

  /** Erases, in place and front to back, every entry of `list` that the expiry test marks at `now`. */
  method CleanupList(list: seq<Wait>, now: nat, rule: ExpiryRule) returns (kept: seq<Wait>)
    ensures kept == Surviving(list, now, rule)
  {
    kept := list;
    var i := 0;
    ghost var seen := 0;
    while i < |kept|
      invariant i <= |kept| && seen <= |list|
      invariant kept[..i] == Surviving(list[..seen], now, rule)
      invariant kept[i..] == list[seen..]
      decreases |kept| - i
    {
      assert list[..seen + 1][..seen] == list[..seen];
      assert list[seen] == kept[i];
      assert kept[i + 1..] == list[seen + 1..];
      if Expired(rule, kept[i].timeout, now) {
        ghost var rest := kept[i + 1..];
        kept := kept[..i] + kept[i + 1..];
        assert kept[i..] == rest;
      } else {
        i := i + 1;
      }
      seen := seen + 1;
    }
    assert list[..seen] == list;
  }

  /**
    Scans the priority list and then the standard list for `guid`, counting
    the 1-based slot as it goes.
   */
  method FindClient(priority: seq<Wait>, standard: seq<Wait>, guid: nat) returns (r: Lookup)
    ensures r == Locate(priority, standard, guid)
  {
    var slot := 1;
    var i := 0;
    while i < |priority|
      invariant i <= |priority| && slot == i + 1
      invariant forall k :: 0 <= k < i ==> priority[k].playerGuid != guid
    {
      if priority[i].playerGuid == guid {
        FirstAtUnique(priority, guid, i, IndexOf(priority, guid));
        return Lookup(InPriority(i), slot);
      }
      i, slot := i + 1, slot + 1;
    }
    var j := 0;
    while j < |standard|
      invariant j <= |standard| && slot == |priority| + j + 1
      invariant forall k :: 0 <= k < j ==> standard[k].playerGuid != guid
    {
      if standard[j].playerGuid == guid {
        FirstAtUnique(standard, guid, j, IndexOf(standard, guid));
        return Lookup(InStandard(j), slot);
      }
      j, slot := j + 1, slot + 1;
    }
    return Lookup(NotQueued, slot);
  }

  /** The queue object: the premium list, the standard list and the expiry test in force. */
  class WaitingList {
    var priorityWaitList: seq<Wait>
    var waitList: seq<Wait>
    /** The code's own test is AsWritten. */
    const rule: ExpiryRule

    ghost function State(): Queues
      reads this
    {
      Queues(priorityWaitList, waitList)
    }

    /** A GUID is queued at most once across both lists. */
    ghost predicate Valid()
      reads this
    {
      Unique(State())
    }

    constructor (rule: ExpiryRule)
      ensures Valid() && State() == Queues([], []) && this.rule == rule
    {
      priorityWaitList, waitList := [], [];
      this.rule := rule;
    }

    /**
      One login attempt. `currentSlot` is the caller's slot variable: the
      result `slot` is its new value, the same value where the attempt leaves
      it alone.
     */
    method ClientLogin(player: Player, currentSlot: nat, now: nat, online: nat, maxPlayers: nat)
      returns (admitted: bool, slot: nat)
      requires Valid()
      modifies this
      ensures Valid()
      ensures Outcome(admitted, slot, State()) == Login(old(State()), player, now, online, maxPlayers, rule, currentSlot)
    {
      LoginKeepsUnique(State(), player, now, online, maxPlayers, rule, currentSlot);
      if player.canAlwaysLogin || player.accountType >= AccountTypeGamemaster {
        return true, currentSlot;
      }

      priorityWaitList := CleanupList(priorityWaitList, now, rule);
      waitList := CleanupList(waitList, now, rule);

      if maxPlayers == 0 || (|priorityWaitList| == 0 && |waitList| == 0 && online < maxPlayers) {
        return true, currentSlot;
      }

      admitted, slot := AdmitOrQueue(player, now, online, maxPlayers);
    }

    /**
      The rest of a login attempt, once the lists are clean and the server is
      capped and busy: admit or refuse a queued player, or enqueue a new one.
     */
    method AdmitOrQueue(player: Player, now: nat, online: nat, maxPlayers: nat)
      returns (admitted: bool, slot: nat)
      modifies this
      ensures Outcome(admitted, slot, State()) == Decide(old(State()), player, now, online, maxPlayers)
    {
      ghost var o := Decide(State(), player, now, online, maxPlayers);
      var found := FindClient(priorityWaitList, waitList, player.guid);
      match found.position {
        case InPriority(i) =>
          slot := found.slot;
          if online + slot <= maxPlayers {
            priorityWaitList := priorityWaitList[..i] + priorityWaitList[i + 1..];
            assert State() == o.queues;
            return true, slot;
          }
          priorityWaitList := priorityWaitList[i := priorityWaitList[i].(timeout := now + GetTimeout(slot) * 1000)];
          assert State() == o.queues;
          return false, slot;
        case InStandard(j) =>
          slot := found.slot;
          if online + slot <= maxPlayers {
            waitList := waitList[..j] + waitList[j + 1..];
            assert State() == o.queues;
            return true, slot;
          }
          waitList := waitList[j := waitList[j].(timeout := now + GetTimeout(slot) * 1000)];
          assert State() == o.queues;
          return false, slot;
        case NotQueued =>
      }

      slot := |priorityWaitList|;
      if player.premium {
        slot := slot + 1;
        priorityWaitList := priorityWaitList + [Wait(now + GetTimeout(slot) * 1000, player.guid)];
      } else {
        slot := slot + |waitList|;
        slot := slot + 1;
        waitList := waitList + [Wait(now + GetTimeout(slot) * 1000, player.guid)];
      }
      assert State() == o.queues;
      return false, slot;
    }
  }
}
