/** Password logins of one account: failure counter, lockout and the password
    policy. */
module Login {
  import opened Options

  datatype Settings = Settings(threshold: int, lockoutSeconds: int)
  datatype Account = Account(failed: int, lockedUntil: Option<int>)

  datatype Event =
    | Attempt(now: int, active: bool, passwordOk: bool)
    | ChangePassword(currentOk: bool, policyOk: bool)

  datatype Outcome = Inactive | Locked | Failed | Success | Changed | ChangeRefused

  const FRESH: Account := Account(0, None)

  /** The number of failures that locks; every value below 1 acts like 1. */
  function Threshold(s: Settings): nat {
    if s.threshold >= 1 then s.threshold else 1
  }

  function IsLocked(account: Account, now: int): bool {
    account.lockedUntil.Some? && account.lockedUntil.value > now
  }

  function Verdict(account: Account, event: Event): Outcome {
    match event
    case Attempt(now, active, passwordOk) =>
      if !active then Inactive
      else if IsLocked(account, now) then Locked
      else if passwordOk then Success else Failed
    case ChangePassword(currentOk, policyOk) =>
      if currentOk && policyOk then Changed else ChangeRefused
  }

  function AfterFailure(s: Settings, account: Account, now: int): Account {
    if account.failed + 1 >= s.threshold then Account(0, Some(now + s.lockoutSeconds))
    else account.(failed := account.failed + 1)
  }

  function After(s: Settings, account: Account, event: Event): Account {
    match Verdict(account, event)
    case Failed => if event.Attempt? then AfterFailure(s, account, event.now) else account
    case Success => FRESH
    case Changed => FRESH
    case _ => account
  }

  class User {
    var isActive: bool
    var failedLoginAttempts: int
    var lockedUntil: Option<int>

    function State(): Account
      reads this
    {
      Account(failedLoginAttempts, lockedUntil)
    }

    constructor ()
      ensures isActive && State() == FRESH
    {
      isActive, failedLoginAttempts, lockedUntil := true, 0, None;
    }

    /** `login_user` after the account has been found; `passwordOk` is the
        verdict of the password hash. */
    method LoginUser(s: Settings, now: int, passwordOk: bool) returns (outcome: Outcome)
      modifies this
      ensures isActive == old(isActive)
      ensures outcome == Verdict(old(State()), Attempt(now, isActive, passwordOk))
      ensures State() == After(s, old(State()), Attempt(now, isActive, passwordOk))
      ensures outcome == Inactive <==> !isActive
      ensures outcome == Locked <==> isActive && old(lockedUntil).Some? && old(lockedUntil).value > now
      ensures outcome == Failed || outcome == Success ==> (outcome == Success <==> passwordOk)
      ensures outcome == Success ==> failedLoginAttempts == 0 && lockedUntil == None
      ensures outcome == Inactive || outcome == Locked ==> State() == old(State())
    {
      if !isActive {
        return Inactive;
      }
      if lockedUntil.Some? && lockedUntil.value > now {
        return Locked;
      }
      if !passwordOk {
        RegisterFailedLogin(s, now);
        return Failed;
      }
      failedLoginAttempts := 0;
      lockedUntil := None;
      return Success;
    }

    method RegisterFailedLogin(s: Settings, now: int)
      modifies this
      ensures isActive == old(isActive)
      ensures State() == AfterFailure(s, old(State()), now)
      ensures if old(failedLoginAttempts) + 1 >= s.threshold
              then failedLoginAttempts == 0 && lockedUntil == Some(now + s.lockoutSeconds)
              else failedLoginAttempts == old(failedLoginAttempts) + 1 && lockedUntil == old(lockedUntil)
    {
      failedLoginAttempts := failedLoginAttempts + 1;
      if failedLoginAttempts >= s.threshold {
        lockedUntil := Some(now + s.lockoutSeconds);
        failedLoginAttempts := 0;
      }
    }

    method ChangePassword(s: Settings, currentOk: bool, policyOk: bool) returns (outcome: Outcome)
      modifies this
      ensures isActive == old(isActive)
      ensures outcome == Verdict(old(State()), Event.ChangePassword(currentOk, policyOk))
      ensures State() == After(s, old(State()), Event.ChangePassword(currentOk, policyOk))
      ensures outcome == Changed <==> currentOk && policyOk
      ensures outcome == Changed ==> failedLoginAttempts == 0 && lockedUntil == None
      ensures outcome != Changed ==> outcome == ChangeRefused && State() == old(State())
    {
      if !currentOk || !policyOk {
        return ChangeRefused;
      }
      failedLoginAttempts := 0;
      lockedUntil := None;
      return Changed;
    }
  }

  // ------------------------------------------------------------------ runs

  function Run(s: Settings, account: Account, events: seq<Event>): Account
    decreases |events|
  {
    if events == [] then account else Run(s, After(s, account, events[0]), events[1..])
  }

  function Outcomes(s: Settings, account: Account, events: seq<Event>): (r: seq<Outcome>)
    ensures |r| == |events|
    decreases |events|
  {
    if events == [] then []
    else [Verdict(account, events[0])] + Outcomes(s, After(s, account, events[0]), events[1..])
  }

  function CountFailed(outcomes: seq<Outcome>): nat {
    if outcomes == [] then 0 else (if outcomes[0] == Failed then 1 else 0) + CountFailed(outcomes[1..])
  }

  ghost predicate InWindow(events: seq<Event>, t: int, length: int) {
    forall i :: 0 <= i < |events| && events[i].Attempt? ==> t <= events[i].now < t + length
  }

  ghost predicate NoReset(outcomes: seq<Outcome>) {
    Success !in outcomes && Changed !in outcomes
  }

  /** The failure counter stays below the threshold after every commit of logins that
      do not overlap. */
  lemma {:induction false} CounterBelowThreshold(s: Settings, account: Account, events: seq<Event>)
    requires 0 <= account.failed < Threshold(s)
    ensures 0 <= Run(s, account, events).failed < Threshold(s)
    decreases |events|
  {
    if events != [] {
      CounterBelowThreshold(s, After(s, account, events[0]), events[1..]);
    }
  }

  lemma {:induction false} LockedThroughWindow(s: Settings, account: Account, events: seq<Event>, t: int)
    requires InWindow(events, t, s.lockoutSeconds) && NoReset(Outcomes(s, account, events))
    requires account.lockedUntil.Some? && account.lockedUntil.value >= t + s.lockoutSeconds
    ensures CountFailed(Outcomes(s, account, events)) == 0
    decreases |events|
  {
    if events != [] {
      var rest := Outcomes(s, After(s, account, events[0]), events[1..]);
      assert Outcomes(s, account, events)[0] != Failed;
      assert NoReset(rest);
      LockedThroughWindow(s, After(s, account, events[0]), events[1..], t);
    }
  }

  lemma {:induction false} WindowBound(s: Settings, account: Account, events: seq<Event>, t: int)
    requires 0 <= account.failed < Threshold(s)
    requires InWindow(events, t, s.lockoutSeconds) && NoReset(Outcomes(s, account, events))
    ensures CountFailed(Outcomes(s, account, events)) <= Threshold(s) - account.failed
    decreases |events|
  {
    if events != [] {
      var next := After(s, account, events[0]);
      var rest := Outcomes(s, next, events[1..]);
      assert Outcomes(s, account, events) == [Verdict(account, events[0])] + rest;
      assert Outcomes(s, account, events)[0] == Verdict(account, events[0]);
      assert NoReset(rest);
      if Verdict(account, events[0]) == Failed && account.failed + 1 >= s.threshold {
        LockedThroughWindow(s, next, events[1..], t);
      } else {
        WindowBound(s, next, events[1..], t);
      }
    }
  }

  /** The lockout bound for logins that do not overlap: in every such run of a new
      account, a stretch of events whose clock readings lie in one window of the
      lockout's length (its end excluded) and which holds no success and no password
      change holds at most threshold failed password checks. */
  lemma LockoutBound(s: Settings, events: seq<Event>, i: nat, j: nat, t: int)
    requires i <= j <= |events|
    requires InWindow(events[i..j], t, s.lockoutSeconds)
    requires NoReset(Outcomes(s, Run(s, FRESH, events[..i]), events[i..j]))
    ensures CountFailed(Outcomes(s, Run(s, FRESH, events[..i]), events[i..j])) <= Threshold(s)
  {
    CounterBelowThreshold(s, FRESH, events[..i]);
    WindowBound(s, Run(s, FRESH, events[..i]), events[i..j], t);
  }

  /** A lockout lasts as long as it says: until then every attempt on the active account
      is locked out and changes nothing, and from then on none is. */
  lemma LockedExactlyUntil(s: Settings, account: Account, now: int, passwordOk: bool)
    requires account.lockedUntil.Some?
    ensures Verdict(account, Attempt(now, true, passwordOk)) == Locked <==> now < account.lockedUntil.value
    ensures now < account.lockedUntil.value ==> After(s, account, Attempt(now, true, passwordOk)) == account
  {
  }

  /** The bound is reached: the threshold's worth of wrong passwords on an open
      account, one after the other, all count as failures and leave it locked for the lockout's length
      after the last one. */
  lemma {:induction false} ThresholdFailuresLock(s: Settings, account: Account, events: seq<Event>)
    requires 0 <= account.failed < Threshold(s) && |events| == Threshold(s) - account.failed
    requires forall i :: 0 <= i < |events| ==>
               events[i].Attempt? && events[i].active && !events[i].passwordOk && !IsLocked(account, events[i].now)
    ensures CountFailed(Outcomes(s, account, events)) == |events|
    ensures Run(s, account, events) == Account(0, Some(events[|events| - 1].now + s.lockoutSeconds))
    decreases |events|
  {
    var next := After(s, account, events[0]);
    if |events| == 1 {
      assert events[1..] == [];
      assert Run(s, next, []) == next;
    } else {
      assert next == account.(failed := account.failed + 1);
      ThresholdFailuresLock(s, next, events[1..]);
    }
    assert Outcomes(s, account, events)[1..] == Outcomes(s, next, events[1..]);
  }

  // -------------------------------------------------------- password policy

  datatype Policy = Policy(minLength: int, maxConsecutive: int)

  /** The Unicode operations that the policy calls. */
  datatype Unicode = Unicode(
    lower: string -> string, upper: string -> string, isDigit: char -> bool, isAlnum: char -> bool)

  datatype Violation = TooShort | NoUppercase | NoLowercase | NoDigit | NoSymbol | LongRun

  /** `length` equal characters from position `start` on. */
  predicate SameFrom(password: string, start: nat, length: nat) {
    start + length <= |password| && forall j :: start <= j < start + length ==> password[j] == password[start]
  }

  /** The shortest run of equal characters that the loop reports: a real run, longer than
      the limit. */
  function ReportedRun(maxConsecutive: int): (r: nat)
    ensures r >= 2 && r > maxConsecutive && (r == 2 || r == maxConsecutive + 1)
  {
    if maxConsecutive >= 1 then maxConsecutive + 1 else 2
  }

  /** The scan for runs of one character. It reports exactly the passwords with
      more than `maxConsecutive` equal characters in a row, except that a limit
      below 1 acts like 1. */
  method HasLongRun(password: string, maxConsecutive: int) returns (found: bool)
    ensures found <==> exists start: nat :: SameFrom(password, start, ReportedRun(maxConsecutive))
  {
    ghost var k := ReportedRun(maxConsecutive);
    var run := 1;
    var i := 1;
    while i < |password|
      invariant 1 <= run < k
      invariant i <= |password| ==> run <= i && SameFrom(password, i - run, run)
      invariant i <= |password| && i > run ==> password[i - run - 1] != password[i - run]
      invariant i > |password| ==> i == 1 && password == ""
      invariant forall start: nat :: start + k <= i ==> !SameFrom(password, start, k)
    {
      if password[i] == password[i - 1] {
        run := run + 1;
        if run > maxConsecutive {
          assert SameFrom(password, i + 1 - run, k);
          return true;
        }
      } else {
        run := 1;
      }
      i := i + 1;
      forall start: nat | start + k == i
        ensures !SameFrom(password, start, k)
      {
        if i > run && start <= i - run - 1 {
          assert password[i - run - 1] != password[i - run];
        }
      }
    }
    return false;
  }

  function Rank(v: Violation): nat {
    match v
    case TooShort => 0
    case NoUppercase => 1
    case NoLowercase => 2
    case NoDigit => 3
    case NoSymbol => 4
    case LongRun => 5
  }

  /** Violations in the order in which they are checked, each at most once, all
      from the first `n` checks. */
  ghost predicate Listed(violations: seq<Violation>, n: nat) {
    && (forall i :: 0 <= i < |violations| ==> Rank(violations[i]) < n)
    && (forall i, j :: 0 <= i < j < |violations| ==> Rank(violations[i]) < Rank(violations[j]))
  }

  /** One check: a violation that is found goes to the end of the list. */
  method Check(violations: seq<Violation>, found: bool, v: Violation) returns (extended: seq<Violation>)
    requires Listed(violations, Rank(v))
    ensures Listed(extended, Rank(v) + 1)
    ensures v in extended <==> found
    ensures forall w :: w != v ==> (w in extended <==> w in violations)
  {
    return if found then violations + [v] else violations;
  }

  /** The list of violations, in the order in which they are checked. */
  method PasswordPolicyViolations(password: string, policy: Policy, u: Unicode) returns (violations: seq<Violation>)
    ensures Listed(violations, 6)
    ensures TooShort in violations <==> |password| < policy.minLength
    ensures NoUppercase in violations <==> u.lower(password) == password
    ensures NoLowercase in violations <==> u.upper(password) == password
    ensures NoDigit in violations <==> forall c :: c in password ==> !u.isDigit(c)
    ensures NoSymbol in violations <==> forall c :: c in password ==> u.isAlnum(c)
    ensures LongRun in violations <==>
              exists start: nat :: SameFrom(password, start, ReportedRun(policy.maxConsecutive))
  {
    violations := Check([], |password| < policy.minLength, TooShort);
    violations := Check(violations, u.lower(password) == password, NoUppercase);
    violations := Check(violations, u.upper(password) == password, NoLowercase);
    violations := Check(violations, !exists c :: c in password && u.isDigit(c), NoDigit);
    violations := Check(violations, !exists c :: c in password && !u.isAlnum(c), NoSymbol);
    var longRun := HasLongRun(password, policy.maxConsecutive);
    violations := Check(violations, longRun, LongRun);
  }
}
