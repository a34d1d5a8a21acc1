/** The cross-process phone lease (sender_agent/device_lease.py): an exclusive `flock` on a file
    per device, retried until a deadline. */
module PhoneLease {
  import opened Effects

  type Descriptor = nat

  /** The lock file as the kernel sees it: this process's open descriptors on it, the one that
      holds the lock, and whether a descriptor of another process does. */
  class LockFile {
    var open: set<Descriptor>
    var holder: Option<Descriptor>
    var elsewhere: bool
    var next: Descriptor
    ghost var attempts: nat  // on the lock, by anybody

    ghost predicate Valid()
      reads this
    {
      && (forall d :: d in open ==> d < next)
      && (holder.Some? ==> holder.value in open && !elsewhere)
    }

    constructor ()
      ensures Valid() && open == {} && holder.None?
    {
      open, holder, elsewhere, next, attempts := {}, None, false, 0, 0;
    }

    method Open() returns (d: Descriptor)
      requires Valid()
      modifies this
      ensures Valid() && d !in old(open) && open == old(open) + {d}
      ensures holder == old(holder) && elsewhere == old(elsewhere) && attempts == old(attempts)
    {
      d := next;
      open, next := open + {d}, next + 1;
    }

    /** Closing the holding descriptor gives up the lock. */
    method Close(d: Descriptor)
      requires Valid()
      modifies this
      ensures Valid() && open == old(open) - {d} && elsewhere == old(elsewhere) && attempts == old(attempts)
      ensures holder == if old(holder) == Some(d) then None else old(holder)
    {
      open := open - {d};
      if holder == Some(d) { holder := None; }
    }

    /** One non-blocking attempt; other processes take and give up the lock as they like. */
    method TryLock(d: Descriptor) returns (r: Answer)
      requires Valid() && d in open && holder != Some(d)
      modifies this
      ensures Valid() && open == old(open) && attempts == old(attempts) + 1
      ensures r.Yes? <==> holder == Some(d)
      ensures r.Yes? ==> old(holder).None?
      ensures !r.Yes? ==> holder == old(holder)
    {
      attempts := attempts + 1;
      var broken := Happens();
      if broken { return Raises; }
      if holder.Some? { return No; }
      elsewhere := Happens();
      if elsewhere { return No; }
      holder := Some(d);
      return Yes;
    }
  }

  /** The steps around the lock: the file opens, its mode can be set, the owner can be written. */
  datatype Setup = Setup(opens: bool, prepared: bool, stamped: bool)

  class DeviceLease {
    const file: LockFile
    var fd: Option<Descriptor>

    /** A lease with a descriptor is the holder, so no two leases have one at the same time. */
    ghost predicate Valid()
      reads this, file
    {
      file.Valid() && (fd.Some? ==> file.holder == fd)
    }

    constructor (file: LockFile)
      requires file.Valid()
      ensures Valid() && fd.None? && this.file == file
    {
      this.file := file;
      fd := None;
    }

    /** `Yes` exactly when this lease is the holder afterwards. Refusals and errors touch nobody
        else's lock and leave no descriptor behind, with one exception: the file's mode is set
        after opening and before the scope that closes it, so a descriptor is left open exactly
        when that step raises. */
    method Acquire(clock: Clock, timeout: real, w: Setup) returns (r: Answer)
      requires Valid()
      modifies this, file, clock
      ensures Valid() && (r.Yes? <==> fd.Some?)
      ensures old(fd).Some? ==> r.Yes? && fd == old(fd) && file.open == old(file.open)
      ensures r.Yes? && old(fd).None? ==>
                old(file.holder).None? && fd.value !in old(file.open) && file.open == old(file.open) + {fd.value}
      ensures !r.Yes? ==> file.holder == old(file.holder) && old(file.open) <= file.open
      ensures !r.Yes? ==> (file.open != old(file.open) <==> w.opens && !w.prepared)
      ensures old(fd).None? && !(w.opens && w.prepared) ==> r.Raises?
      ensures r.Yes? && old(fd).None? ==> w.stamped
      ensures r.No? ==> clock.now >= old(clock.now) + timeout && file.attempts > old(file.attempts)
    {
      if fd.Some? { return Yes; }
      if !w.opens { return Raises; }
      var d := file.Open();
      if !w.prepared {
        assert d in file.open && d !in old(file.open);
        return Raises;
      }
      var deadline := clock.now + timeout;
      r := file.TryLock(d);
      while r.No?
        invariant Valid() && fd.None? && file.open == old(file.open) + {d} && d !in old(file.open)
        invariant r.Yes? <==> file.holder == Some(d)
        invariant r.Yes? ==> old(file.holder).None?
        invariant !r.Yes? ==> file.holder == old(file.holder)
        invariant file.attempts > old(file.attempts)
        invariant clock.now >= old(clock.now) && deadline == old(clock.now) + timeout
        decreases r.No?, if deadline > clock.now then ((deadline - clock.now) * 10.0).Floor + 1 else 0
      {
        if clock.now >= deadline {
          file.Close(d);
          return No;
        }
        clock.Pass(0.1);
        r := file.TryLock(d);
      }
      if r.Yes? && !w.stamped {
        r := Raises;
      }
      if r.Yes? {
        fd := Some(d);
      } else {
        file.Close(d);
      }
    }

    method Release()
      requires Valid()
      modifies this, file
      ensures Valid() && fd.None?
      ensures old(fd).Some? ==> file.holder.None? && file.open == old(file.open) - {old(fd).value}
      ensures old(fd).None? ==> file.holder == old(file.holder) && file.open == old(file.open)
    {
      var d := fd;
      fd := None;
      if d.Some? { file.Close(d.value); }
    }
  }
}
