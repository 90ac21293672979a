/** The login form's throttle (src/pages/Login/index.tsx): a failed-attempt
    counter kept in `localStorage['loginAttempts']`, a five-minute lock after the
    fifth thrown login kept in `localStorage['blockUntil']`, and the once-a-second
    poll that lifts the lock. The clock and the outcome of `login` are
    parameters. */
module Login {
  import opened Wrappers
  import opened Strings
  import opened Js
  import opened Dom
  import opened ApiHandlers

  const MaxAttempts := 5
  /** The lock, in milliseconds. */
  const BlockTime := 300000

  const AttemptsKey := "loginAttempts"
  const BlockUntilKey := "blockUntil"

  const TooManyAttempts := "Слишком много попыток. Попробуйте позже."
  const InvalidCredentials := "Неверные учетные данные."
  const LoginFailed := "Произошла ошибка."

  /** `Math.ceil(ms / 1000)` for a whole number of milliseconds. */
  function CeilSeconds(ms: int): (s: int)
    ensures (s - 1) * 1000 < ms <= s * 1000
  {
    -((-ms) / 1000)
  }

  /** The error `block` shows. */
  function BlockMessage(seconds: int): string {
    "Повторите попытку через " + IntToString(seconds) + " секунд"
  }

  /** The countdown the poll shows; `None` is NaN, which prints as "NaN". */
  function CountdownMessage(seconds: Option<int>): string {
    "Попробуйте через " + (if seconds.Some? then IntToString(seconds.value) else "NaN") + " секунд"
  }

  /** `Number(localStorage.getItem('loginAttempts')) || 0`: a missing entry
      reads as `Number(null)`, which is 0, and NaN falls back to 0. */
  function InitialAttempts(stored: Option<string>): (n: int)
    ensures stored.None? ==> n == 0
    ensures stored.Some? && ToNumber(stored.value).None? ==> n == 0
    ensures stored.Some? && ToNumber(stored.value).Some? ==> n == ToNumber(stored.value).value
  {
    if stored.None? then 0
    else
      var x := ToNumber(stored.value);
      if x.Some? then x.value else 0
  }

  /** `if (blockUntil)`: an entry that is present and not the empty string. */
  predicate HasBlockUntil(stored: Option<string>) {
    stored.Some? && stored.value != []
  }

  /** The initial `isBlocked`: the stored deadline is still ahead of `now`. */
  function InitiallyBlocked(stored: Option<string>, now: int): (b: bool)
    ensures b <==> HasBlockUntil(stored) && ToNumber(stored.value).Some? && ToNumber(stored.value).value > now
  {
    HasBlockUntil(stored) && var x := ToNumber(stored.value); x.Some? && x.value > now
  }

  /** What one run of `checkBlockStatus` decides. */
  datatype Poll =
    | NoDeadline                   // nothing stored: no state changes
    | Unblock                      // the deadline has passed
    | StillBlocked(display: string)

  /** `checkBlockStatus` for the stored `blockUntil` at time `now`: the
      remaining time is `Number(blockUntil) - now`; NaN is not `<= 0`. */
  function PollOutcome(stored: Option<string>, now: int): (p: Poll)
    ensures p.NoDeadline? <==> !HasBlockUntil(stored)
    ensures p.Unblock? <==> HasBlockUntil(stored) && ToNumber(stored.value).Some? && ToNumber(stored.value).value <= now
    ensures p.StillBlocked? && ToNumber(stored.value).Some? ==>
      p.display == CountdownMessage(Some(CeilSeconds(ToNumber(stored.value).value - now)))
    ensures p.StillBlocked? && ToNumber(stored.value).None? ==> p.display == CountdownMessage(None)
  {
    if !HasBlockUntil(stored) then NoDeadline
    else
      var deadline := ToNumber(stored.value);
      if deadline.Some? && deadline.value - now <= 0 then Unblock
      else StillBlocked(CountdownMessage(if deadline.Some? then Some(CeilSeconds(deadline.value - now)) else None))
  }

  /** The submit button: disabled while blocked or while either field is empty. */
  predicate SubmitEnabled(isBlocked: bool, username: string, password: string) {
    !isBlocked && username != [] && password != []
  }

  /** A login succeeds when the body has a truthy `access_token`
      (`response?.access_token`). */
  predicate HasAccessToken(body: JsValue) {
    !Nullish(body) && Truthy(Field(body, "access_token"))
  }

  /** The stored counter reads back as the number written. */
  lemma AttemptsRoundTrip(n: int)
    ensures InitialAttempts(Some(IntToString(n))) == n
  {
    ToNumberToString(n);
  }

  /** The lock message always names the full five minutes. */
  lemma BlockMessageSeconds()
    ensures CeilSeconds(BlockTime) == 300
    ensures BlockMessage(CeilSeconds(BlockTime)) == "Повторите попытку через 300 секунд"
  {
    assert IntToString(300) == "300";
  }

  /** A lock written at `start` holds, on reload and on every poll, exactly
      until `start + BlockTime`; meanwhile the countdown lies between 1 and 300
      seconds. */
  lemma {:induction false} BlockLastsFullTime(start: int, now: int)
    ensures InitiallyBlocked(Some(IntToString(start + BlockTime)), now) <==> now < start + BlockTime
    ensures PollOutcome(Some(IntToString(start + BlockTime)), now).Unblock? <==> now >= start + BlockTime
    ensures start <= now < start + BlockTime ==>
      PollOutcome(Some(IntToString(start + BlockTime)), now).display == CountdownMessage(Some(CeilSeconds(start + BlockTime - now)))
      && 1 <= CeilSeconds(start + BlockTime - now) <= 300
  {
    var s := IntToString(start + BlockTime);
    ToNumberToString(start + BlockTime);
    assert s != [] by {
      if start + BlockTime < 0 { assert s[0] == '-'; }
    }
  }

  /** After a reload during a lock written at `start`, the button stays
      disabled for every input until `start + BlockTime`; from then on it
      depends only on both fields being filled. */
  lemma {:induction false} ReloadKeepsSubmitLocked(start: int, now: int, username: string, password: string)
    ensures SubmitEnabled(InitiallyBlocked(Some(IntToString(start + BlockTime)), now), username, password)
        <==> now >= start + BlockTime && username != [] && password != []
  {
    BlockLastsFullTime(start, now);
  }

  /** A deadline that does not read as a number is never lifted by the poll:
      the page shows a NaN countdown at every tick. */
  lemma MalformedDeadlineNeverUnblocks(stored: string, now: int)
    requires stored != [] && ToNumber(stored).None?
    ensures PollOutcome(Some(stored), now) == StillBlocked("Попробуйте через NaN секунд")
    ensures !InitiallyBlocked(Some(stored), now)
  {
  }

  /** The login page's state; `w` holds `localStorage`. */
  class LoginPage {
    const w: Window
    var attempts: int
    var isBlocked: bool
    var error: string
    var remainingTimeDisplay: string
    /** The route the page navigated to, if any. */
    var navigatedTo: Option<string>

    /** The stored counter agrees with the one in state: reloading the page
        would restore the same count. */
    predicate Synced()
      reads this, w
    {
      InitialAttempts(w.GetItem(AttemptsKey)) == attempts
    }

    /** The first render at time `now`. */
    constructor (w: Window, now: int)
      ensures this.w == w
      ensures attempts == InitialAttempts(w.GetItem(AttemptsKey))
      ensures isBlocked == InitiallyBlocked(w.GetItem(BlockUntilKey), now)
      ensures error == [] && remainingTimeDisplay == [] && navigatedTo.None?
      ensures Synced()
    {
      this.w := w;
      attempts := InitialAttempts(w.GetItem(AttemptsKey));
      isBlocked := InitiallyBlocked(w.GetItem(BlockUntilKey), now);
      error, remainingTimeDisplay, navigatedTo := [], [], None;
    }

    /** `block`: locks the form until `now + BlockTime` and says so. */
    method Block(now: int)
      requires Synced()
      modifies this, w
      ensures Synced()
      ensures isBlocked
      ensures w.storage == old(w.storage)[BlockUntilKey := IntToString(now + BlockTime)]
      ensures error == BlockMessage(CeilSeconds(BlockTime))
      ensures attempts == old(attempts) && remainingTimeDisplay == old(remainingTimeDisplay)
      ensures navigatedTo == old(navigatedTo)
      ensures w.jar == old(w.jar) && w.pathname == old(w.pathname) && w.href == old(w.href)
    {
      isBlocked := true;
      var blockUntil := now + BlockTime;
      assert AttemptsKey[0] != BlockUntilKey[0];
      w.SetItem(BlockUntilKey, IntToString(blockUntil));
      var remainingTime := CeilSeconds(blockUntil - now);
      error := BlockMessage(remainingTime);
    }

    /** `handleLogin` with the outcome of `login` (its body, or what it threw).
        While blocked nothing is sent; a body with a token resets the counter
        and goes home; a body without one only reports bad credentials; a
        throw counts one attempt and locks the form at the fifth. */
    method HandleLogin(outcome: Result<JsValue, Thrown>, now: int)
      requires Synced()
      modifies this, w
      ensures Synced()
      ensures old(isBlocked) ==>
        && error == TooManyAttempts && w.storage == old(w.storage)
        && attempts == old(attempts) && navigatedTo == old(navigatedTo)
      ensures !old(isBlocked) && outcome.Success? && HasAccessToken(outcome.value) ==>
        && attempts == 0 && w.storage == old(w.storage)[AttemptsKey := "0"]
        && error == [] && navigatedTo == Some("/")
      ensures !old(isBlocked) && outcome.Success? && !HasAccessToken(outcome.value) ==>
        && attempts == old(attempts) && w.storage == old(w.storage)
        && error == InvalidCredentials && navigatedTo == old(navigatedTo)
      ensures !old(isBlocked) && outcome.Failure? ==>
        && attempts == old(attempts) + 1
        && navigatedTo == old(navigatedTo)
        && (attempts >= MaxAttempts ==>
              isBlocked && (forall u, p :: !SubmitEnabled(isBlocked, u, p)) && error == BlockMessage(300)
              && w.storage == old(w.storage)[AttemptsKey := IntToString(attempts)][BlockUntilKey := IntToString(now + BlockTime)])
        && (attempts < MaxAttempts ==>
              isBlocked == old(isBlocked) && error == LoginFailed
              && w.storage == old(w.storage)[AttemptsKey := IntToString(attempts)])
      ensures old(isBlocked) || outcome.Success? ==> isBlocked == old(isBlocked)
      ensures remainingTimeDisplay == old(remainingTimeDisplay)
      ensures w.jar == old(w.jar) && w.pathname == old(w.pathname) && w.href == old(w.href)
    {
      error := [];
      if isBlocked {
        error := TooManyAttempts;
        return;
      }
      match outcome
      case Success(response) => LoginResolved(response);
      case Failure(_) => LoginThrew(now);
    }

    /** The `try` branch once `login` resolved with `response`. */
    method LoginResolved(response: JsValue)
      requires Synced()
      modifies this, w
      ensures Synced()
      ensures HasAccessToken(response) ==>
        && attempts == 0 && w.storage == old(w.storage)[AttemptsKey := "0"]
        && error == [] && navigatedTo == Some("/")
      ensures !HasAccessToken(response) ==>
        && attempts == old(attempts) && w.storage == old(w.storage)
        && error == InvalidCredentials && navigatedTo == old(navigatedTo)
      ensures isBlocked == old(isBlocked) && remainingTimeDisplay == old(remainingTimeDisplay)
      ensures w.jar == old(w.jar) && w.pathname == old(w.pathname) && w.href == old(w.href)
    {
      if HasAccessToken(response) {
        w.SetItem(AttemptsKey, "0");
        AttemptsRoundTrip(0);
        attempts := 0;
        error := [];
        navigatedTo := Some("/");
      } else {
        error := InvalidCredentials;
      }
    }

    /** `setAttempts(attempts + 1)` together with the stored counter. */
    method CountAttempt()
      modifies this, w
      ensures Synced()
      ensures attempts == old(attempts) + 1
      ensures w.storage == old(w.storage)[AttemptsKey := IntToString(attempts)]
      ensures isBlocked == old(isBlocked) && error == old(error) && navigatedTo == old(navigatedTo)
      ensures remainingTimeDisplay == old(remainingTimeDisplay)
      ensures w.jar == old(w.jar) && w.pathname == old(w.pathname) && w.href == old(w.href)
    {
      var newAttempts := attempts + 1;
      attempts := newAttempts;
      w.SetItem(AttemptsKey, IntToString(newAttempts));
      AttemptsRoundTrip(newAttempts);
    }

    /** The `catch` branch: one more failed attempt, and the block at the fifth. */
    method LoginThrew(now: int)
      requires Synced()
      modifies this, w
      ensures Synced()
      ensures attempts == old(attempts) + 1 && navigatedTo == old(navigatedTo)
      ensures attempts >= MaxAttempts ==>
        && isBlocked && (forall u, p :: !SubmitEnabled(isBlocked, u, p)) && error == BlockMessage(300)
        && w.storage == old(w.storage)[AttemptsKey := IntToString(attempts)][BlockUntilKey := IntToString(now + BlockTime)]
      ensures attempts < MaxAttempts ==>
        && isBlocked == old(isBlocked) && error == LoginFailed
        && w.storage == old(w.storage)[AttemptsKey := IntToString(attempts)]
      ensures remainingTimeDisplay == old(remainingTimeDisplay)
      ensures w.jar == old(w.jar) && w.pathname == old(w.pathname) && w.href == old(w.href)
    {
      CountAttempt();
      if attempts >= MaxAttempts {
        Block(now);
        BlockMessageSeconds();
      } else {
        error := LoginFailed;
      }
    }

    /** The poll's unblocking branch: state and storage back to no attempts. */
    method Unblock()
      modifies this, w
      ensures Synced()
      ensures !isBlocked && error == [] && attempts == 0 && remainingTimeDisplay == []
      ensures forall u, p :: SubmitEnabled(isBlocked, u, p) <==> u != [] && p != []
      ensures w.storage == (old(w.storage) - {BlockUntilKey})[AttemptsKey := "0"]
      ensures navigatedTo == old(navigatedTo)
      ensures w.jar == old(w.jar) && w.pathname == old(w.pathname) && w.href == old(w.href)
    {
      isBlocked := false;
      error := [];
      attempts := 0;
      remainingTimeDisplay := [];
      w.RemoveItem(BlockUntilKey);
      w.SetItem(AttemptsKey, "0");
      AttemptsRoundTrip(0);
    }

    /** `checkBlockStatus` at time `now`, as the interval runs it. */
    method CheckBlockStatus(now: int)
      requires Synced()
      modifies this, w
      ensures Synced()
      ensures PollOutcome(old(w.GetItem(BlockUntilKey)), now).NoDeadline? ==>
        && isBlocked == old(isBlocked) && error == old(error) && attempts == old(attempts)
        && remainingTimeDisplay == old(remainingTimeDisplay) && w.storage == old(w.storage)
      ensures PollOutcome(old(w.GetItem(BlockUntilKey)), now).Unblock? ==>
        && !isBlocked && error == [] && attempts == 0 && remainingTimeDisplay == []
        && (forall u, p :: SubmitEnabled(isBlocked, u, p) <==> u != [] && p != [])
        && w.storage == (old(w.storage) - {BlockUntilKey})[AttemptsKey := "0"]
      ensures PollOutcome(old(w.GetItem(BlockUntilKey)), now).StillBlocked? ==>
        && isBlocked && (forall u, p :: !SubmitEnabled(isBlocked, u, p))
        && error == old(error) && attempts == old(attempts)
        && remainingTimeDisplay == PollOutcome(old(w.GetItem(BlockUntilKey)), now).display
        && w.storage == old(w.storage)
      ensures navigatedTo == old(navigatedTo)
      ensures w.jar == old(w.jar) && w.pathname == old(w.pathname) && w.href == old(w.href)
    {
      var poll := PollOutcome(w.GetItem(BlockUntilKey), now);
      match poll
      case NoDeadline =>
      case Unblock => Unblock();
      case StillBlocked(display) => isBlocked, remainingTimeDisplay := true, display;
    }
  }
}
