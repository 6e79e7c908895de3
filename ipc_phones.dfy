/** The per-task phone table of the kernel IPC layer (generic/src/ipc/ipcrsc.c).

    A task owns a fixed array of IPC_MAX_PHONES phone slots. A slot is
    `busy` once allocated to the task and has a `callee` (the answerbox it is
    connected to) once connected. Spinlocks are modelled as a `locked` flag
    on the slot; the task-wide lock taken by allocation and deallocation only
    serialises those calls and has no sequential effect. */
module IpcPhones {
  import opened Common

  /** Capacity of every task's phone table (the value of IPC_MAX_PHONES in
      the kernel's IPC header). */
  const IPC_MAX_PHONES: nat := 16

  /** An answerbox, identified by the task that owns it. */
  type BoxId = nat

  /** One slot of the phone table. */
  datatype Phone = Phone(busy: bool, callee: Option<BoxId>, locked: bool)

  /** A slot that was never allocated. */
  const FreePhone: Phone := Phone(false, None, false)

  /** Number of allocated slots in a table. */
  function BusyCount(s: seq<Phone>): (n: nat)
    ensures n <= |s|
    ensures n == 0 <==> forall i :: 0 <= i < |s| ==> !s[i].busy
  {
    if s == [] then 0
    else (if s[0].busy then 1 else 0) + BusyCount(s[1..])
  }

  /** Replacing one slot changes the busy count by the difference of the
      two slots' `busy` flags. */
  lemma {:induction false} BusyCountUpdate(s: seq<Phone>, i: nat, p: Phone)
    requires i < |s|
    ensures BusyCount(s[i := p]) + (if s[i].busy then 1 else 0)
         == BusyCount(s) + (if p.busy then 1 else 0)
  {
    if i == 0 {
      assert s[i := p][1..] == s[1..];
    } else {
      assert s[i := p][1..] == s[1..][i - 1 := p];
      BusyCountUpdate(s[1..], i - 1, p);
    }
  }

  class PhoneTable {
    /** The slots, indexed by phone id. */
    var phones: array<Phone>

    /** The table has its fixed capacity, and a slot that is not allocated
        is not connected. */
    ghost predicate Valid()
      reads this, phones
    {
      && phones.Length == IPC_MAX_PHONES
      && forall i :: 0 <= i < phones.Length ==> (!phones[i].busy ==> phones[i].callee == None)
    }

    /** The table of a new task: every slot free, unconnected and unlocked. */
    constructor ()
      ensures Valid() && fresh(phones)
      ensures forall i :: 0 <= i < phones.Length ==> phones[i] == FreePhone
    {
      phones := new Phone[IPC_MAX_PHONES](_ => FreePhone);
    }

    /** get_phone_and_lock: the range and connectedness gate used before a
        send. An out-of-range id yields None without touching any lock; an
        unconnected slot yields None and its lock is released again; a
        connected slot is returned with its lock held. */
    method GetPhoneAndLock(phoneid: nat) returns (r: Option<nat>)
      requires Valid()
      requires phoneid < IPC_MAX_PHONES ==> !phones[phoneid].locked
      modifies phones
      ensures Valid()
      ensures phoneid >= IPC_MAX_PHONES ==> r == None && phones[..] == old(phones[..])
      ensures phoneid < IPC_MAX_PHONES && old(phones[phoneid].callee) == None ==>
                r == None && phones[..] == old(phones[..])
      ensures phoneid < IPC_MAX_PHONES && old(phones[phoneid].callee) != None ==>
                r == Some(phoneid)
                && phones[..] == old(phones[..])[phoneid := old(phones[phoneid]).(locked := true)]
    {
      if phoneid >= IPC_MAX_PHONES {
        return None;
      }
      phones[phoneid] := phones[phoneid].(locked := true);
      if phones[phoneid].callee == None {
        phones[phoneid] := phones[phoneid].(locked := false);
        return None;
      }
      return Some(phoneid);
    }

    /** phone_alloc: takes the lowest free slot and marks it busy, or returns
        -1 with the table unchanged when every slot is busy. */
    method PhoneAlloc() returns (r: int)
      requires Valid()
      modifies phones
      ensures Valid()
      ensures -1 <= r < IPC_MAX_PHONES
      ensures r == -1 <==> forall i :: 0 <= i < IPC_MAX_PHONES ==> old(phones[i]).busy
      ensures r == -1 ==> phones[..] == old(phones[..])
      ensures r >= 0 ==>
                && !old(phones[r]).busy
                && (forall i :: 0 <= i < r ==> old(phones[i]).busy)
                && phones[..] == old(phones[..])[r := old(phones[r]).(busy := true)]
                && BusyCount(phones[..]) == BusyCount(old(phones[..])) + 1
    {
      var i := 0;
      while i < IPC_MAX_PHONES
        invariant 0 <= i <= IPC_MAX_PHONES
        invariant forall j :: 0 <= j < i ==> phones[j].busy
        invariant phones[..] == old(phones[..])
      {
        if !phones[i].busy {
          phones[i] := phones[i].(busy := true);
          break;
        }
        i := i + 1;
      }
      if i >= IPC_MAX_PHONES {
        return -1;
      }
      BusyCountUpdate(old(phones[..]), i, old(phones[i]).(busy := true));
      return i;
    }

    /** ipc_phone_destroy, which lives outside this model: it is called only
        on a connected slot and is assumed only to disconnect it. */
    method IpcPhoneDestroy(phoneid: nat)
      requires Valid()
      requires phoneid < IPC_MAX_PHONES && phones[phoneid].busy && phones[phoneid].callee != None
      modifies phones
      ensures Valid()
      ensures phones[..] == old(phones[..])[phoneid := old(phones[phoneid]).(callee := None)]
    {
      phones[phoneid] := phones[phoneid].(callee := None);
    }

    /** ipc_phone_connect, which lives outside this model: it is assumed only
        to connect an allocated, unconnected slot to the answerbox. */
    method IpcPhoneConnect(phoneid: nat, box: BoxId)
      requires Valid()
      requires phoneid < IPC_MAX_PHONES && phones[phoneid].busy && phones[phoneid].callee == None
      modifies phones
      ensures Valid()
      ensures phones[..] == old(phones[..])[phoneid := old(phones[phoneid]).(callee := Some(box))]
    {
      phones[phoneid] := phones[phoneid].(callee := Some(box));
    }

    /** phone_dealloc: the slot must be busy (an assertion in the source);
        a connected slot is destroyed first, then the slot is freed. The
        ghost result tells whether the destroy step ran. */
    method PhoneDealloc(phoneid: nat) returns (ghost destroyed: bool)
      requires Valid()
      requires phoneid < IPC_MAX_PHONES && phones[phoneid].busy
      modifies phones
      ensures Valid()
      ensures destroyed <==> old(phones[phoneid].callee) != None
      ensures phones[..] == old(phones[..])[phoneid := old(phones[phoneid]).(busy := false, callee := None)]
      ensures BusyCount(phones[..]) + 1 == BusyCount(old(phones[..]))
    {
      destroyed := false;
      if phones[phoneid].callee != None {
        IpcPhoneDestroy(phoneid);
        destroyed := true;
      }
      phones[phoneid] := phones[phoneid].(busy := false);
      BusyCountUpdate(old(phones[..]), phoneid, phones[phoneid]);
    }

    /** phone_connect: connects slot `phoneid` to `box`; no other slot
        changes. The source does not range-check `phoneid`. */
    method PhoneConnect(phoneid: nat, box: BoxId)
      requires Valid()
      requires phoneid < IPC_MAX_PHONES && phones[phoneid].busy && phones[phoneid].callee == None
      modifies phones
      ensures Valid()
      ensures phones[phoneid] == old(phones[phoneid]).(callee := Some(box))
      ensures forall i :: 0 <= i < IPC_MAX_PHONES && i != phoneid ==> phones[i] == old(phones[i])
    {
      IpcPhoneConnect(phoneid, box);
    }
  }
}
