/**
 * The failed-login log and the lockout rule
 * (Components/Services/LoginAttemptService.cs): five failed attempts for a
 * username, ignoring case, within thirty minutes lock the account until
 * thirty minutes after the latest of them. Times are ticks of 100 ns.
 */
module LoginAttempts {
  import opened Common
  import opened Users

  const MaxAttempts: nat := 5
  const LockoutMinutes: nat := 30
  const TicksPerMinute: nat := 600_000_000
  const LockoutTicks: nat := LockoutMinutes * TicksPerMinute

  /** `Where(p).ToList()`. */
  function Filter<T>(s: seq<T>, p: T -> bool): (r: seq<T>)
    ensures |r| <= |s|
    ensures forall i :: 0 <= i < |r| ==> r[i] in s && p(r[i])
    ensures forall i :: 0 <= i < |s| && p(s[i]) ==> s[i] in r
  {
    if s == [] then []
    else Filter(s[..|s| - 1], p) + (if p(s[|s| - 1]) then [s[|s| - 1]] else [])
  }

  /**
   * The filter keeps order: filtering a concatenation filters each part,
   * and it keeps a sequence whose every element passes.
   */
  lemma {:induction false} FilterConcat<T>(a: seq<T>, b: seq<T>, p: T -> bool)
    ensures Filter(a + b, p) == Filter(a, p) + Filter(b, p)
    decreases |b|
  {
    if b == [] {
      assert a + b == a;
    } else {
      assert (a + b)[..|a + b| - 1] == a + b[..|b| - 1];
      FilterConcat(a, b[..|b| - 1], p);
    }
  }

  lemma {:induction false} FilterAll<T>(s: seq<T>, p: T -> bool)
    requires forall i :: 0 <= i < |s| ==> p(s[i])
    ensures Filter(s, p) == s
    decreases |s|
  {
    if s != [] {
      var init := s[..|s| - 1];
      assert forall i :: 0 <= i < |init| ==> init[i] == s[i];
      FilterAll(init, p);
      assert p(s[|s| - 1]);
      assert Filter(s, p) == Filter(init, p) + [s[|s| - 1]];
      assert s == init + [s[|s| - 1]];
    }
  }

  /** A sequence none of whose elements passes filters to nothing. */
  lemma {:induction false} FilterNone<T>(s: seq<T>, p: T -> bool)
    requires forall i :: 0 <= i < |s| ==> !p(s[i])
    ensures Filter(s, p) == []
    decreases |s|
  {
    if s != [] {
      var init := s[..|s| - 1];
      assert forall i :: 0 <= i < |init| ==> init[i] == s[i];
      FilterNone(init, p);
      assert !p(s[|s| - 1]);
    }
  }

  predicate IsRecent(a: LoginAttempt, username: string, now: int) {
    EqualsIgnoreCase(a.username, username) && a.timestamp > now - LockoutTicks
  }

  /** `GetRecentAttemptsAsync`. */
  function RecentAttempts(attempts: seq<LoginAttempt>, username: string, now: int): (r: seq<LoginAttempt>)
    ensures forall a :: a in r <==> a in attempts && IsRecent(a, username, now)
  {
    Filter(attempts, (a: LoginAttempt) => IsRecent(a, username, now))
  }

  function Timestamps(attempts: seq<LoginAttempt>): (r: seq<int>)
    ensures |r| == |attempts| && forall k :: 0 <= k < |attempts| ==> r[k] == attempts[k].timestamp
  {
    seq(|attempts|, k requires 0 <= k < |attempts| => attempts[k].timestamp)
  }

  /** `GetLockoutExpiryAsync`: the latest recent attempt plus the lockout, once there are five. */
  function LockoutExpiry(attempts: seq<LoginAttempt>, username: string, now: int): Option<int> {
    var recent := RecentAttempts(attempts, username, now);
    if |recent| >= MaxAttempts then Some(MaxOrDefault(Timestamps(recent), 0) + LockoutTicks) else None
  }

  /**
   * There is no expiry below five recent attempts; otherwise the expiry is
   * thirty minutes after some recent attempt and no earlier than thirty
   * minutes after any of them, hence later than `now`.
   */
  lemma LockoutExpirySpec(attempts: seq<LoginAttempt>, username: string, now: int)
    ensures var e := LockoutExpiry(attempts, username, now);
      (e.None? <==> |RecentAttempts(attempts, username, now)| < MaxAttempts)
      && (e.Some? ==> (
        (exists a :: a in attempts && IsRecent(a, username, now) && e.value == a.timestamp + LockoutTicks)
        && (forall a :: a in attempts && IsRecent(a, username, now) ==> a.timestamp + LockoutTicks <= e.value)
        && now < e.value))
  {
    var recent := RecentAttempts(attempts, username, now);
    if |recent| >= MaxAttempts {
      var ts := Timestamps(recent);
      var m := MaxOrDefault(ts, 0);
      var i :| 0 <= i < |ts| && ts[i] == m;
      assert recent[i] in recent;
      forall a | a in attempts && IsRecent(a, username, now)
        ensures a.timestamp + LockoutTicks <= m + LockoutTicks
      {
        assert a in recent;
        var j :| 0 <= j < |recent| && recent[j] == a;
        assert ts[j] <= m;
      }
    }
  }

  /** `ClearAttemptsForUserAsync`: every attempt whose username differs, ignoring case. */
  function Cleared(attempts: seq<LoginAttempt>, username: string): seq<LoginAttempt> {
    Filter(attempts, (a: LoginAttempt) => !EqualsIgnoreCase(a.username, username))
  }

  /**
   * Clearing removes exactly the user's attempts, in any case, keeping the
   * others in their order, and leaves no recent attempt for that user.
   */
  lemma ClearedSpec(attempts: seq<LoginAttempt>, more: seq<LoginAttempt>, username: string, now: int)
    ensures forall a :: a in Cleared(attempts, username) <==> a in attempts && !EqualsIgnoreCase(a.username, username)
    ensures Cleared(attempts + more, username) == Cleared(attempts, username) + Cleared(more, username)
    ensures (forall k :: 0 <= k < |attempts| ==> !EqualsIgnoreCase(attempts[k].username, username)) ==>
      Cleared(attempts, username) == attempts
    ensures RecentAttempts(Cleared(attempts, username), username, now) == []
  {
    var p := (a: LoginAttempt) => !EqualsIgnoreCase(a.username, username);
    FilterConcat(attempts, more, p);
    if forall k :: 0 <= k < |attempts| ==> !EqualsIgnoreCase(attempts[k].username, username) {
      FilterAll(attempts, p);
    }
    var c := Cleared(attempts, username);
    forall i | 0 <= i < |c| ensures !IsRecent(c[i], username, now) {
      assert p(c[i]);
    }
    FilterNone(c, (a: LoginAttempt) => IsRecent(a, username, now));
  }

  datatype LockCheck = LockCheck(locked: bool, attempts: seq<LoginAttempt>)

  /**
   * `IsAccountLockedAsync`. The recent attempts are taken at `readAt` and
   * the expiry compared with the clock at `checkAt`; once the lockout has
   * expired the user's attempts are cleared.
   */
  function LockedOutcome(attempts: seq<LoginAttempt>, username: string, readAt: int, checkAt: int): LockCheck {
    var recent := RecentAttempts(attempts, username, readAt);
    if |recent| >= MaxAttempts then
      var expiry := MaxOrDefault(Timestamps(recent), 0) + LockoutTicks;
      if checkAt < expiry then LockCheck(true, attempts)
      else LockCheck(false, Cleared(attempts, username))
    else LockCheck(false, attempts)
  }

  /**
   * Read against one clock value, an account is locked exactly when it has
   * five recent attempts, and the log never changes: the "lockout
   * expired" branch cannot be taken, since every recent attempt expires
   * after that clock value.
   */
  lemma LockedOneClock(attempts: seq<LoginAttempt>, username: string, now: int)
    ensures LockedOutcome(attempts, username, now, now)
         == LockCheck(|RecentAttempts(attempts, username, now)| >= MaxAttempts, attempts)
  {
    LockoutExpirySpec(attempts, username, now);
  }

  /**
   * With two clock values, the account is locked only while it has five
   * recent attempts and the later clock is before the expiry; when the
   * expired branch is taken the user's attempts are gone.
   */
  lemma LockedTwoClocks(attempts: seq<LoginAttempt>, username: string, readAt: int, checkAt: int)
    ensures var o := LockedOutcome(attempts, username, readAt, checkAt);
      (o.locked <==> (LockoutExpiry(attempts, username, readAt).Some?
                      && checkAt < LockoutExpiry(attempts, username, readAt).value))
      && (o.locked ==> o.attempts == attempts)
      && (o.attempts != attempts ==> o.attempts == Cleared(attempts, username))
  {
  }

  /**
   * `_fileLock`, a static `SemaphoreSlim(1, 1)`, as a sequence of lock
   * operations: `WaitAsync` on a held lock does not return until another
   * caller releases it, and a semaphore does not know which caller holds it,
   * so a caller that waits twice waits on itself.
   */
  datatype LockOp = Wait | Release

  /** The run of a command's lock operations: it returns with the lock free or held, or it blocks. */
  datatype LockRun = Returns(held: bool) | Blocks

  function Run(ops: seq<LockOp>, held: bool): (r: LockRun)
    ensures (Wait !in ops) ==> r == Returns(if Release in ops then false else held)
    decreases |ops|
  {
    if ops == [] then Returns(held)
    else match ops[0]
      case Wait => if held then Blocks else Run(ops[1..], true)
      case Release => Run(ops[1..], false)
  }

  /** Running two phases one after the other. */
  lemma {:induction false} RunConcat(a: seq<LockOp>, b: seq<LockOp>, held: bool)
    ensures Run(a + b, held) == match Run(a, held) case Blocks => Blocks case Returns(h) => Run(b, h)
    decreases |a|
  {
    if a == [] {
      assert a + b == b;
    } else {
      assert (a + b)[0] == a[0];
      assert (a + b)[1..] == a[1..] + b;
      match a[0]
      case Wait => if !held { RunConcat(a[1..], b, true); }
      case Release => RunConcat(a[1..], b, false);
    }
  }

  /** `await _fileLock.WaitAsync(); try { body } finally { _fileLock.Release(); }` */
  function Locked(body: seq<LockOp>): seq<LockOp> {
    [Wait] + body + [Release]
  }

  /** `GetAllAttemptsAsync` takes the lock itself (LoginAttemptService.cs:134). */
  function GetAllAttemptsLocking(): seq<LockOp> {
    Locked([])
  }

  /**
   * `RecordFailedAttemptAsync` and `ClearAttemptsForUserAsync` as written:
   * the lock is taken and, inside it, `GetAllAttemptsAsync` takes it again.
   */
  function AsWrittenLockedCommand(): seq<LockOp> {
    Locked(GetAllAttemptsLocking())
  }

  /** As written, neither command returns, whatever the lock's state when it starts. */
  lemma AsWrittenLockedCommandBlocks(held: bool)
    ensures Run(AsWrittenLockedCommand(), held) == Blocks
  {
    RunConcat([Wait], GetAllAttemptsLocking() + [Release], held);
    if !held {
      RunConcat([Wait], [] + [Release], true);
      RunConcat(GetAllAttemptsLocking(), [Release], true);
    }
    assert AsWrittenLockedCommand() == [Wait] + (GetAllAttemptsLocking() + [Release]);
  }

  /**
   * Corrected: inside the lock the commands read the worksheet without
   * taking the lock again, as the unlocked body of `GetAllAttemptsAsync`.
   */
  function CorrectedLockedCommand(): seq<LockOp> {
    Locked([])
  }

  /**
   * Corrected, a command started on a free lock returns and leaves it free;
   * on a lock another caller holds it waits, as a semaphore should.
   * This is the atomic command the service class models.
   */
  lemma CorrectedLockedCommandReturns(held: bool)
    ensures Run(CorrectedLockedCommand(), held) == if held then Blocks else Returns(false)
  {
    RunConcat([Wait], [] + [Release], held);
    assert CorrectedLockedCommand() == [Wait] + ([] + [Release]);
  }

  class LoginAttemptService {
    var attempts: seq<LoginAttempt>

    constructor (attempts: seq<LoginAttempt>)
      ensures this.attempts == attempts
    {
      this.attempts := attempts;
    }

    /** `RecordFailedAttemptAsync`: one attempt, stamped `now`, at the end. */
    method RecordFailedAttempt(username: string, ipAddress: string, reason: string, now: int)
      modifies this
      ensures attempts == old(attempts) + [LoginAttempt(username, ipAddress, now, reason)]
      ensures |attempts| == |old(attempts)| + 1 && attempts[..|old(attempts)|] == old(attempts)
    {
      attempts := attempts + [LoginAttempt(username, ipAddress, now, reason)];
    }

    method IsAccountLocked(username: string, readAt: int, checkAt: int) returns (locked: bool)
      modifies this
      ensures LockCheck(locked, attempts) == LockedOutcome(old(attempts), username, readAt, checkAt)
    {
      var recent := RecentAttempts(attempts, username, readAt);
      if |recent| >= MaxAttempts {
        var lockoutExpiry := MaxOrDefault(Timestamps(recent), 0) + LockoutTicks;
        if checkAt < lockoutExpiry {
          return true;
        }
        ClearAttemptsForUser(username);
        return false;
      }
      return false;
    }

    function GetLockoutExpiry(username: string, now: int): (r: Option<int>)
      reads this
      ensures r.Some? ==> now < r.value
      ensures r.None? <==> |RecentAttempts(attempts, username, now)| < MaxAttempts
    {
      LockoutExpirySpec(attempts, username, now);
      LockoutExpiry(attempts, username, now)
    }

    method ClearAttemptsForUser(username: string)
      modifies this
      ensures attempts == Cleared(old(attempts), username)
    {
      attempts := Cleared(attempts, username);
    }
  }
}
