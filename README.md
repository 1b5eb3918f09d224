# Exclusive-lock server of interruptiblermi, modelled in Dafny

The demo of interruptiblermi exports an RMI object, `LockServiceServer`, that hands out one
exclusive lock. The object has two fields. `lockCookie` is the current lock's cookie and is
-1 while the lock is free. `isShuttingDown` is raised by `dispose`.

- `acquireLock` waits while the lock is held. Each time `wait()` returns, it first abandons
  with an exception if the caller's RMI socket has died, then abandons if the server is
  shutting down. If `wait()` throws `InterruptedException` instead, the exception is caught,
  both checks are skipped and the loop test runs again. Once it finds the lock free, it
  stores and returns `Math.abs(random.nextInt())`.
- `releaseLock(cookie)` throws `SecurityException` unless `cookie` is the current one.
  Otherwise it frees the lock.
- `dispose` raises the shutdown flag, unexports the object and releases the lock with the
  current cookie.
- A console thread reads lines. `unlock` (any case) releases the current lock. `exit`
  (any case) ends the loop and disposes. Lines that are blank after `trim` are skipped.
  Anything else prints a usage text.

The project has four modules:

- `JavaInt` (java_int.dfy) models Java's 32-bit `int`, with its wrap-around and
  `Math.abs`.
- `ShellInput` (shell_input.dfy) models the console command classifier, with Java's
  `equalsIgnoreCase` and `trim`.
- `LockSpec` (lock_spec.dfy) is the server as a state machine on values, with a function
  per operation and the lemmas about them.
- `LockServer` (lock_service_server.dfy) is the `LockServiceServer` class. Its fields are
  updated in place, and each method is proved to do what its `LockSpec` function says.
  `AcquireLock` and `ListenForShellInput` keep the source's loops.

Each return from `wait()` is an input of type `Wakeup`. It holds the two fields as the
waiter finds them on taking the monitor back, since other threads may have run in between,
whether `wait()` ended by throwing `InterruptedException`, and the liveness of the waiter's
socket. The liveness comes from
`InterruptibleRMISocketFactory.isCurrentRMIServerThreadSocketAlive()`, which is not part of
this model. An acquire that uses up its wake-ups while the lock is still held reports
`StillWaiting`. The random draw and the console lines are parameters.

### Where the comments and the code disagree

The comment on `lockCookie` (LockServiceServer.java:67-71) says the cookie is always a
positive integer. The code computes it with Java's 32-bit `Math.abs`. That returns 0 for 0
and `Integer.MIN_VALUE` for `Integer.MIN_VALUE`. The model follows the code.
`JavaInt.AbsNotAlwaysPositive` shows both cases. What does hold is that the cookie is never
-1 (`JavaInt.Abs32`), so a granted lock is always held. Other behaviour of the code as
written:
- On entry, `acquireLock` does not look at `isShuttingDown`. A caller that finds the lock
  free gets it even during shutdown (`LockSpec.EntryIgnoresShutdown`).
- The liveness and shutdown checks run after every normal return from `wait()`, even one
  that finds the lock free. They are skipped after an interrupted `wait()`, whose
  exception the code catches as one that "doesn't happen". A waiter interrupted during
  shutdown can therefore be granted the lock once it is free, although the interface
  comment (LockService.java:37-38) promises an exception
  (`LockSpec.ShuttingDownWaiterNotGranted` names the interruption as the only way).
- The interface comment (LockService.java:33-34) says the cookie uniquely identifies the
  exclusive lock. It does not: the draws x and -x give the same cookie, so a caller that
  kept its cookie after releasing can release the lock of a later holder
  (`LockSpec.StaleCookieReleasesLaterHolder`).

## Model

| member | source | states |
|---|---|---|
| JavaInt.Wrap32 | src-demo/org/neilja/net/interruptiblermi/demo/server/LockServiceServer.java:244 | Java `int` arithmetic keeps the low 32 bits: the result is congruent to its argument modulo 2^32, and an in-range argument is unchanged |
| JavaInt.Abs32 | src-demo/org/neilja/net/interruptiblermi/demo/server/LockServiceServer.java:244 | `Math.abs` is the magnitude for every `int` except `Integer.MIN_VALUE`, which it returns unchanged; it never returns -1 |
| JavaInt.AbsNotAlwaysPositive | src-demo/org/neilja/net/interruptiblermi/demo/server/LockServiceServer.java:67-71 | against the "always positive" comment: `abs(0)` is 0 and `abs(Integer.MIN_VALUE)` is negative |
| ShellInput.TrimStart | src-demo/org/neilja/net/interruptiblermi/demo/server/LockServiceServer.java:147 | the leading part `trim` removes consists of characters up to U+0020, and what remains is a suffix that is empty or starts with another character |
| ShellInput.TrimEnd | src-demo/org/neilja/net/interruptiblermi/demo/server/LockServiceServer.java:147 | the trailing part `trim` removes consists of characters up to U+0020, and what remains is a prefix that is empty or ends with another character |
| ShellInput.Trim | src-demo/org/neilja/net/interruptiblermi/demo/server/LockServiceServer.java:147 | `trim` returns a contiguous part of the line, everything before and after it is U+0020 or below, and what it leaves is empty or starts and ends with a character above U+0020 |
| ShellInput.EqualsIgnoreCase | src-demo/org/neilja/net/interruptiblermi/demo/server/LockServiceServer.java:136-143 | no ensures of its own (a predicate); its meaning, equality of lower-case forms, is `EqualsIgnoreCaseIsLowerEquality` |
| ShellInput.TrimEmptyIffAllTrimmed | src-demo/org/neilja/net/interruptiblermi/demo/server/LockServiceServer.java:147 | `input.trim().length() == 0` holds exactly when every character of the line is U+0020 or below |
| ShellInput.EqualsIgnoreCaseIsLowerEquality | src-demo/org/neilja/net/interruptiblermi/demo/server/LockServiceServer.java:136-143 | with the model's ASCII folding, `equalsIgnoreCase` holds exactly when the ASCII lower-case forms are equal |
| ShellInput.Classify | src-demo/org/neilja/net/interruptiblermi/demo/server/LockServiceServer.java:136-155 | a line is `unlock` iff its lower-case form is "unlock", `exit` iff it is "exit", blank iff every character is one `trim` strips, and unknown otherwise |
| ShellInput.ClassifyIgnoresCase | src-demo/org/neilja/net/interruptiblermi/demo/server/LockServiceServer.java:136-143 | changing the case of a line's letters never changes the command it means |
| ShellInput.MixedCaseExamples | src-demo/org/neilja/net/interruptiblermi/demo/server/LockServiceServer.java:136-146 | "UnLoCk" releases and "EXIT" stops |
| ShellInput.BlankExamples | src-demo/org/neilja/net/interruptiblermi/demo/server/LockServiceServer.java:147-150 | the empty line and a line of spaces and tabs are skipped |
| ShellInput.UnknownExamples | src-demo/org/neilja/net/interruptiblermi/demo/server/LockServiceServer.java:136-155 | commands are matched whole and untrimmed: " exit" and "unlock now" are unknown |
| LockSpec.Release | src-demo/org/neilja/net/interruptiblermi/demo/server/LockServiceServer.java:261-282 | release succeeds iff the cookie is the current one; success leaves the lock free, refusal leaves the state untouched, and the shutdown flag never changes |
| LockSpec.NewCookie | src-demo/org/neilja/net/interruptiblermi/demo/server/LockServiceServer.java:244 | the cookie `Math.abs(nextInt())` is never -1, so it always marks the lock as held |
| LockSpec.Dispose | src-demo/org/neilja/net/interruptiblermi/demo/server/LockServiceServer.java:180-188 | dispose always raises the shutdown flag; when the RMI teardown returns normally the lock is left free, and when it throws the cookie is untouched |
| LockSpec.Acquire | src-demo/org/neilja/net/interruptiblermi/demo/server/LockServiceServer.java:199-248 | a granted acquire returns and stores `Math.abs` of the draw, and a caller still waiting faces a held lock; the rest is proved in `AcquireOutcomeState`, `GrantOnlyWhenSeenFree`, `HeldLockIsNotGranted` and `WakeupChecksInOrder` |
| LockSpec.ReleaseCurrentNeverFails | src-demo/org/neilja/net/interruptiblermi/demo/server/LockServiceServer.java:264-276 | releasing with the current cookie, as `dispose` and `unlock` do, always succeeds and frees the lock; on a free lock that is releasing -1, which changes nothing |
| LockSpec.ReleaseIdempotent | src-demo/org/neilja/net/interruptiblermi/demo/server/LockServiceServer.java:264-276 | repeating a release with the same cookie changes nothing more |
| LockSpec.AcquireOutcomeState | src-demo/org/neilja/net/interruptiblermi/demo/server/LockServiceServer.java:204-247 | a granted acquire returns the cookie it stored, `Math.abs` of the draw, and the lock is then held; an acquire that fails or still waits writes nothing, leaving the state it was called in or found at a wake-up |
| LockSpec.GrantOnlyWhenSeenFree | src-demo/org/neilja/net/interruptiblermi/demo/server/LockServiceServer.java:204-244 | a cookie is assigned only where the lock was observed free: on entry, or at a wake-up that was interrupted or had a live socket and no shutdown |
| LockSpec.HeldLockIsNotGranted | src-demo/org/neilja/net/interruptiblermi/demo/server/LockServiceServer.java:204-238 | mutual exclusion: while every wake-up finds the lock held, the waiter keeps looping and is never granted it |
| LockSpec.GrantAfterWaitNotShuttingDown | src-demo/org/neilja/net/interruptiblermi/demo/server/LockServiceServer.java:224-237 | a waiter granted the lock after waiting saw the server not shutting down, unless one of its waits was interrupted |
| LockSpec.WakeupChecksInOrder | src-demo/org/neilja/net/interruptiblermi/demo/server/LockServiceServer.java:224-237 | on a normal return from `wait()` a dead socket fails with "socket is dead" even during shutdown; a live socket during shutdown fails with "shutting down"; neither failure changes the state; otherwise, and after any interrupted `wait()`, the loop goes on from the state found |
| LockSpec.EntryIgnoresShutdown | src-demo/org/neilja/net/interruptiblermi/demo/server/LockServiceServer.java:199-204 | an acquire that finds the lock free is granted it even while the server shuts down |
| LockSpec.AcquireThenRelease | src-demo/org/neilja/net/interruptiblermi/demo/server/LockServiceServer.java:199-282 | acquiring a free lock and releasing it with the returned cookie restores the original state |
| LockSpec.StaleCookieReleasesLaterHolder | src-demo/org/neilja/net/interruptiblermi/demo/server/LockService.java:33-34 | against "uniquely identifying": draws x and -x give the same cookie, and the first holder's cookie, kept after its release, releases the second holder's lock |
| LockSpec.OnlyHolderReleases | src-demo/org/neilja/net/interruptiblermi/demo/server/LockServiceServer.java:244-268 | after a grant, any cookie other than the returned one is refused with a security error |
| LockSpec.DisposeStopsWaiters | src-demo/org/neilja/net/interruptiblermi/demo/server/LockServiceServer.java:180-237 | a waiter whose `wait()` returns normally after `dispose`, whether or not the teardown threw, fails with "shutting down" if its socket is alive and "socket is dead" otherwise; an interrupted one goes back to the loop test |
| LockSpec.ShutdownIsPermanent | src-demo/org/neilja/net/interruptiblermi/demo/server/LockService.java:37-38 | release, dispose, one console command and the whole console loop never clear the shutdown flag once it is set |
| LockSpec.AcquireKeepsShutdown | src-demo/org/neilja/net/interruptiblermi/demo/server/LockService.java:37-38 | on a server whose wake-ups never show the shutdown flag cleared, an acquire started during shutdown leaves the flag set |
| LockSpec.ShuttingDownWaiterNotGranted | src-demo/org/neilja/net/interruptiblermi/demo/server/LockService.java:37-38 | a caller blocked on a held lock while the server shuts down is never granted it, except through an interrupted `wait()` that found the lock free (LockServiceServer.java:233-237 skips the checks) |
| LockSpec.AfterCommand | src-demo/org/neilja/net/interruptiblermi/demo/server/LockServiceServer.java:136-155 | a console `unlock` leaves the lock free, blank and unknown lines leave the state as it was, and no command that continues the loop touches the shutdown flag |
| LockSpec.Shell | src-demo/org/neilja/net/interruptiblermi/demo/server/LockServiceServer.java:132-165 | the console loop stopped by `exit` has read at least one more line, no more than there are, and leaves the server shutting down; one that runs out of input leaves the shutdown flag as it was; the rest is proved in `ShellEndsAtFirstExit`, `ShellRunsOutOnlyWithoutExit` and `ShellWithoutExit` |
| LockSpec.ShellEndsAtFirstExit | src-demo/org/neilja/net/interruptiblermi/demo/server/LockServiceServer.java:132-165 | when the console loop stops on `exit`, that was the first `exit` line, and the server is then shutting down (with the lock free if the teardown succeeded) |
| LockSpec.ShellRunsOutOnlyWithoutExit | src-demo/org/neilja/net/interruptiblermi/demo/server/LockServiceServer.java:132-157 | the console loop ends by running out of input exactly when no line says `exit` |
| LockSpec.ShellWithoutExit | src-demo/org/neilja/net/interruptiblermi/demo/server/LockServiceServer.java:132-157 | if input runs out before `exit`, the shutdown flag is unchanged, and the lock is free if some line said `unlock` and untouched otherwise |
| LockSpec.CancelledWaiterScenario | src-demo/org/neilja/net/interruptiblermi/demo/server/LockServiceServer.java:199-282 | first caller is granted the lock; a second caller whose connection dies while waiting abandons and leaves it with the first; the first's release frees it and a third caller gets it |
| LockServer.LockServiceServer.constructor | src-demo/org/neilja/net/interruptiblermi/demo/server/LockServiceServer.java:65-71 | a new server has the lock free and is not shutting down |
| LockServer.LockServiceServer.ReleaseLock | src-demo/org/neilja/net/interruptiblermi/demo/server/LockServiceServer.java:261-282 | the new fields and the outcome are those of `LockSpec.Release`: a wrong cookie is refused and nothing changes, the right one sets `lockCookie` to -1, and `isShuttingDown` is untouched |
| LockServer.LockServiceServer.AcquireLock | src-demo/org/neilja/net/interruptiblermi/demo/server/LockServiceServer.java:199-248 | the wait loop, including the caught `InterruptedException`, yields the outcome and fields of `LockSpec.Acquire`; a granted cookie is the stored `lockCookie` and is not -1 |
| LockServer.LockServiceServer.Dispose | src-demo/org/neilja/net/interruptiblermi/demo/server/LockServiceServer.java:180-188 | the fields become `LockSpec.Dispose` of the old ones: shutting down, and the lock free unless the teardown threw |
| LockServer.LockServiceServer.ListenForShellInput | src-demo/org/neilja/net/interruptiblermi/demo/server/LockServiceServer.java:126-173 | the console loop over the given lines ends as `LockSpec.Shell` says for their commands, and leaves the fields it says |
| LockServer.CancelledWaiterRun | src-demo/org/neilja/net/interruptiblermi/demo/server/LockServiceServer.java:199-282 | the cancelled-waiter scenario run against one server object ends with a third caller granted the lock |

## Left out

- The cancellable transport (the socket factory, the thread factory and the registry that binds threads to sockets) and `InterruptibleRMISocketFactory` are not part of this model. The factory's liveness answer is the `socketAlive` input of each `Wakeup`.
- RMI registry creation, export, binding, unbinding and unexporting (LockServiceServer.java:78-117, 185-186) are framework calls. `dispose` takes one boolean saying whether they returned normally.
- `wait()`/`notifyAll()` and the monitor are not modelled as concurrency. The other threads' effect during a wait is the `observed` state of a `Wakeup`. `LockSpec.Acquire` accepts any observed states; the lemmas about shutdown assume `LockSpec.ShutdownStays`, that no wake-up shows the shutdown flag cleared, which `ShutdownIsPermanent` proves of release, dispose and the console loop, and `AcquireKeepsShutdown` proves of acquire, given that no wake-up shows the flag cleared. `notifyAll` has no effect beyond that.
- The console's `unlock` reads `lockCookie` outside the monitor before it calls the synchronized `releaseLock`. Under concurrency another thread can re-acquire in between. The release then throws `SecurityException` and ends the console thread. The model runs the console loop sequentially, so this race is not captured.
- `java.util.Random`, `Scanner`/`System.in`, `Logger` and the usage text printed for unknown lines are I/O. The random draw and the lines are parameters, and nothing is printed.
- LockServer.LockServiceServer.ListenForShellInput: `dispose` exceptions are caught and printed in the source. The model represents a failed teardown only by its effect on the state.
- ShellInput.EqualsIgnoreCase: folds ASCII letters only. Java's `equalsIgnoreCase` compares the Unicode upper-case and lower-case mappings of each character, so `"exıt".equalsIgnoreCase("exit")` holds in Java (U+0131 upper-cases to `I`) and not in the model.
- ShellInput.EqualsIgnoreCaseIsLowerEquality: is about the model's ASCII folding. For Java's `equalsIgnoreCase` beyond ASCII it does not hold: `"ı"` equals `"i"` ignoring case, yet their `toLowerCase()` forms differ.
- ShellInput.Classify: case folding covers ASCII letters only. Java's `equalsIgnoreCase` uses Unicode case mapping, so it also matches e.g. U+0131 with `i` and U+212A with `k`. Those lines are classified as unknown here.
- The demo's client UI and entry point (LockerViewController.java, LockServiceClientUI.java, InterruptibleRMIDemo.java) are Swing widgets and thread start-up.
