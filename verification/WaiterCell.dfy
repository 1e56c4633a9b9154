/** The cell itself: one 64-bit word holds the address and the flags, and every instruction of
    src/waiter.rs is a mask or a bit-or on it.  Each method is one instruction and carries out one
    step of the protocol in `Waiters`. */
module WaiterCells {
  import opened QueueSpec
  import opened Waiters

  const HAS_LOCK: bv64 := 1
  const CAN_DROP: bv64 := 2
  const WANTS_EVICT: bv64 := 4
  const FLAG_MASK: bv64 := 7
  const PTR_MASK: bv64 := 0xFFFF_FFFF_FFFF_FFF8

  function FlagsOf(bits: bv64): Flags {
    Flags(bits & HAS_LOCK != 0, bits & WANTS_EVICT != 0)
  }

  function AddressOf(bits: bv64): Address {
    bits & PTR_MASK
  }

  function MayDrop(bits: bv64): bool {
    bits & CAN_DROP != 0
  }

  function Unpack(bits: bv64): Word {
    Word(AddressOf(bits), FlagsOf(bits), MayDrop(bits))
  }

  function Pack(w: Word): bv64
    requires Aligned(w.addr)
  {
    w.addr | (if w.flags.lock then HAS_LOCK else 0) | (if w.canDrop then CAN_DROP else 0)
    | (if w.flags.evict then WANTS_EVICT else 0)
  }

  lemma PackedWord(w: Word)
    requires Aligned(w.addr)
    ensures Unpack(Pack(w)) == w
  {
  }

  lemma UnpackedBits(bits: bv64)
    ensures Aligned(AddressOf(bits)) && Pack(Unpack(bits)) == bits
  {
  }

  /** Nothing is lost in the packing, in either direction. */
  lemma PackRoundTrip(w: Word, bits: bv64)
    requires Aligned(w.addr)
    ensures Unpack(Pack(w)) == w
    ensures Aligned(AddressOf(bits)) && Pack(Unpack(bits)) == bits
  {
    hide Pack, Unpack;
    PackedWord(w);
    UnpackedBits(bits);
  }

  lemma KeepingFlags(bits: bv64)
    ensures Unpack(bits & FLAG_MASK) == Unpack(bits).(addr := NULL)
  {
  }

  lemma KeepingLockAndEvict(bits: bv64)
    ensures Unpack(bits & (FLAG_MASK ^ CAN_DROP)) == Unpack(bits).(addr := NULL, canDrop := false)
  {
  }

  lemma SettingCanDrop(bits: bv64)
    ensures Unpack(bits | CAN_DROP) == Unpack(bits).(canDrop := true)
  {
  }

  lemma SettingLock(bits: bv64)
    ensures Unpack(bits | HAS_LOCK) == Unpack(bits).(flags := Flags(true, FlagsOf(bits).evict))
  {
  }

  lemma SettingEvict(bits: bv64)
    ensures Unpack(bits | WANTS_EVICT) == Unpack(bits).(flags := Flags(FlagsOf(bits).lock, true))
  {
  }

  lemma SettingAddress(bits: bv64, addr: Address)
    requires Aligned(addr) && AddressOf(bits) == NULL
    ensures Unpack(bits | (addr | CAN_DROP)) == Unpack(bits).(addr := addr, canDrop := true)
  {
  }

  class WaiterCell {
    var bits: bv64
    var slot: Slot
    var target: Flags
    var owner: Owner
    var notifier: Notifier
    var nextWaker: nat
    ghost var woken: multiset<nat>
    ghost var dropped: multiset<nat>
    ghost var republished: bool

    ghost function State(): State
      reads this
    {
      Waiters.State(Unpack(bits), slot, target, owner, notifier, nextWaker, woken, dropped, republished)
    }

    constructor (hasLock: bool)
      ensures State() == Initial(hasLock)
    {
      bits := if hasLock then HAS_LOCK | CAN_DROP else CAN_DROP;
      slot, target := Slot(NULL, false, None), Flags(false, false);
      owner, notifier, nextWaker := NoFuture, Off, 0;
      woken, dropped, republished := multiset{}, multiset{}, false;
    }

    // ----- The owner

    /** The continuation of `clear_waker`, once it returns `seen`. */
    function Return(call: Call, seen: Flags): (o: Owner)
      reads this
      ensures o == Cleared(State(), call, seen)
    {
      match call
      case Entry => if seen.Covers(target) then Resting(Ready(seen)) else Writing
      case Retry => Resting(Ready(seen))
      case Final => Freeing
    }

    method ClearFetchAnd()
      requires owner.Clearing?
      modifies this`bits, this`owner
      ensures State() == StepOwner(old(State()))
    {
      hide AddressOf, FlagsOf, MayDrop;
      KeepingFlags(bits);
      var addr, canDrop := AddressOf(bits), MayDrop(bits);
      var call, seen := owner.call, FlagsOf(bits);
      bits := bits & FLAG_MASK;
      owner := if addr != NULL then Dropping(call, seen)
               else if !canDrop then Spinning(call, seen)
               else Return(call, seen);
    }

    method DropInPlace()
      requires Inv(State()) && owner.Dropping?
      modifies this`slot, this`dropped, this`owner
      ensures State() == StepOwner(old(State()))
      ensures old(slot.waker).Some?
    {
      dropped := dropped + Held(slot.waker);
      slot := slot.(waker := None);
      owner := Return(owner.call, owner.seen);
    }

    method SpinLoad() returns (done: bool)
      requires owner.Spinning?
      modifies this`owner
      ensures State() == StepOwner(old(State())) && (done <==> !owner.Spinning?)
    {
      done := MayDrop(bits);
      if done {
        owner := Return(owner.call, owner.seen);
      }
    }

    method WriteWaker()
      requires Inv(State()) && owner.Writing?
      modifies this`slot, this`owner, this`nextWaker
      ensures State() == StepOwner(old(State()))
      ensures old(slot.waker).None? && !notifier.Reading?
    {
      slot := slot.(waker := Some(nextWaker));
      owner := Publishing(nextWaker);
      nextWaker := nextWaker + 1;
    }

    method PublishFetchOr()
      requires Inv(State()) && owner.Publishing?
      modifies this`bits, this`republished, this`owner
      ensures State() == StepOwner(old(State()))
    {
      hide AddressOf, FlagsOf, MayDrop;
      var existing := bits;
      SettingAddress(bits, slot.addr);
      bits := bits | (slot.addr | CAN_DROP);
      republished := true;
      owner := if FlagsOf(existing).Meets(target) then Clearing(Retry) else Resting(Pending(owner.w));
    }

    method Free()
      requires Inv(State()) && owner.Freeing?
      modifies this`slot, this`owner
      ensures State() == StepOwner(old(State()))
      ensures AddressOf(bits) == NULL && !notifier.Reading?
    {
      slot := slot.(alive := false);
      owner := NoFuture;
    }

    // ----- The notifier

    /** `start`, up to its call of `notify`. */
    method StartFetchOr()
      requires notifier.Off?
      modifies this`bits, this`notifier
      ensures State() == StartNotifying(old(State()), Flags(true, false))
      ensures FlagsOf(bits) == Flags(true, FlagsOf(old(bits)).evict)
    {
      hide AddressOf, FlagsOf, MayDrop;
      var recv := bits;
      SettingLock(recv);
      bits := recv | HAS_LOCK;
      notifier := if AddressOf(recv) != NULL then Taking else Off;
    }

    /** `evict`, up to its call of `notify`. */
    method EvictFetchOr()
      requires notifier.Off?
      modifies this`bits, this`notifier
      ensures State() == StartNotifying(old(State()), Flags(false, true))
      ensures FlagsOf(bits) == Flags(FlagsOf(old(bits)).lock, true)
    {
      hide AddressOf, FlagsOf, MayDrop;
      var recv := bits;
      SettingEvict(recv);
      bits := recv | WANTS_EVICT;
      notifier := if AddressOf(recv) != NULL then Taking else Off;
    }

    method NotifyFetchAnd()
      requires notifier.Taking?
      modifies this`bits, this`republished, this`notifier
      ensures State() == StepNotifier(old(State()))
    {
      hide AddressOf, FlagsOf, MayDrop;
      KeepingLockAndEvict(bits);
      var addr, restore := AddressOf(bits), MayDrop(bits);
      bits := bits & (FLAG_MASK ^ CAN_DROP);
      republished := false;
      notifier := if addr != NULL then Reading(addr, restore)
                  else if restore then Restoring(None) else Off;
    }

    method ReadWaker()
      requires Inv(State()) && notifier.Reading?
      modifies this`slot, this`notifier
      ensures State() == StepNotifier(old(State()))
      ensures old(notifier.addr == slot.addr && slot.alive && slot.waker.Some?)
    {
      var hand := slot.waker;
      slot := slot.(waker := None);
      notifier := if notifier.restore then Restoring(hand) else Handed(hand);
    }

    method RestoreFetchOr()
      requires notifier.Restoring?
      modifies this`bits, this`notifier
      ensures State() == StepNotifier(old(State()))
    {
      hide AddressOf, FlagsOf, MayDrop;
      SettingCanDrop(bits);
      bits := bits | CAN_DROP;
      notifier := Handed(notifier.hand);
    }

    method Wake()
      requires notifier.Waking?
      modifies this`woken, this`notifier
      ensures State() == StepNotifier(old(State()))
    {
      woken := woken + multiset{notifier.w};
      notifier := Off;
    }
  }
}
