/** The lock server object: two fields updated in place by its synchronized methods, each
    method proved to do what the matching function of `LockSpec` says. */
module LockServer {
  import opened JavaInt
  import opened ShellInput
  import opened LockSpec

  class LockServiceServer {
    /** The current lock's cookie, or -1 when no one holds the lock. */
    var lockCookie: Int32
    /** Set once `dispose` has begun. */
    var isShuttingDown: bool

    function State(): LockState
      reads this
    {
      LockState(lockCookie, isShuttingDown)
    }

    /** A new server: lock free, not shutting down (RMI export and the console thread are
        not part of the model). */
    constructor ()
      ensures State() == Initial
    {
      lockCookie := FREE;
      isShuttingDown := false;
    }

    /** `releaseLock`: a cookie other than the current one is refused with a security error
        and nothing changes; the current cookie frees the lock. */
    method ReleaseLock(cookie: Int32) returns (r: ReleaseOutcome)
      modifies this
      ensures Step(r, State()) == Release(old(State()), cookie)
      ensures r == Released <==> cookie == old(lockCookie)
      ensures r == Released ==> lockCookie == FREE
      ensures r == SecurityError ==> lockCookie == old(lockCookie)
      ensures isShuttingDown == old(isShuttingDown)
    {
      if cookie != lockCookie {
        return SecurityError;
      }
      lockCookie := FREE;
      r := Released;
    }

    /** `acquireLock`: while the lock is held, wait; each `wakes[i]` is one return from
        `wait()`, carrying the fields as the waiter finds them, whether `wait()` threw
        `InterruptedException`, and its connection's liveness. Running out of wake-ups
        leaves the caller still blocked. */
    method AcquireLock(random: Int32, wakes: seq<Wakeup>) returns (r: AcquireOutcome)
      modifies this
      ensures Step(r, State()) == Acquire(old(State()), random, wakes)
      ensures r.Granted? ==> r.cookie == lockCookie != FREE
    {
      var i := 0;
      while lockCookie != FREE
        invariant 0 <= i <= |wakes|
        invariant Acquire(State(), random, wakes[i..]) == Acquire(old(State()), random, wakes)
        decreases |wakes| - i
      {
        if i == |wakes| {
          return StillWaiting;
        }
        // wait(): the monitor is given up, other threads run, and the fields are reread
        var w := wakes[i];
        lockCookie, isShuttingDown := w.observed.cookie, w.observed.shuttingDown;
        assert wakes[i..][1..] == wakes[i + 1..];
        i := i + 1;
        if !w.interrupted {
          if !w.socketAlive {
            return SocketDead;
          }
          if isShuttingDown {
            return ShuttingDown;
          }
        }
        // an InterruptedException is caught and the loop test runs again
      }
      lockCookie := Abs32(random);
      r := Granted(lockCookie);
    }

    /** `dispose`: raise the shutdown flag, tear down the RMI export (`teardownOk` is false
        when that throws, which skips the release) and release the lock with its own cookie. */
    method Dispose(teardownOk: bool) returns (disposed: bool)
      modifies this
      ensures State() == LockSpec.Dispose(old(State()), teardownOk)
      ensures disposed == teardownOk
      ensures isShuttingDown
      ensures disposed ==> lockCookie == FREE
    {
      isShuttingDown := true;
      if !teardownOk {
        return false;
      }
      var released := ReleaseLock(lockCookie);
      disposed := true;
    }

    /** `listenForShellInput`: read console lines until `exit`, then dispose; `unlock`
        releases the current lock; blank lines are skipped and anything else only prints
        the usage text. Running out of lines ends the loop without disposing. */
    method ListenForShellInput(lines: seq<string>, teardownOk: bool) returns (end: ShellEnd)
      modifies this
      ensures Step(end, State()) == Shell(old(State()), Commands(lines), 0, teardownOk)
    {
      ghost var commands := Commands(lines);
      var i := 0;
      while true
        invariant 0 <= i <= |lines|
        invariant Shell(State(), commands, i, teardownOk) == Shell(old(State()), commands, 0, teardownOk)
        decreases |lines| - i
      {
        if i == |lines| {
          // nextLine() throws: the console thread ends here
          return InputEnded;
        }
        var command := Classify(lines[i]);
        assert command == commands[i];
        if command == Exit {
          i := i + 1;
          break;
        }
        ghost var before := State();
        if command == Unlock {
          var released := ReleaseLock(lockCookie);
        }
        assert State() == AfterCommand(before, command);
        i := i + 1;
      }
      var disposed := Dispose(teardownOk);
      end := Exited(i);
    }
  }

  /** The two-caller scenario of `LockSpec.CancelledWaiterScenario`, run against one server
      object rather than on state values, so that it exercises the methods' contracts: the
      second caller is cancelled while it waits, the first still holds the lock and releases
      it, and a third caller gets it. */
  method CancelledWaiterRun(r1: Int32, r2: Int32, r3: Int32) returns (third: AcquireOutcome)
    ensures third == Granted(Abs32(r3))
  {
    var server := new LockServiceServer();
    var first := server.AcquireLock(r1, []);
    assert first == Granted(Abs32(r1));
    var second := server.AcquireLock(r2, [Wakeup(server.State(), false, false)]);
    assert second == SocketDead;
    var released := server.ReleaseLock(Abs32(r1));
    assert released == Released;
    third := server.AcquireLock(r3, []);
  }
}
