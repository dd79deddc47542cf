/** The privacy screen: when a hidden page comes back locked, and what a picker's exemption is worth. */
module PrivacyLocks {
  import opened Common

  const MAX_PRIVACY_SUSPENSION_MS: real := 60000.0

  /** A JavaScript number: finite, or one of NaN and the infinities. */
  datatype Number = Finite(value: real) | NonFinite

  datatype Lock = Lock(enabled: bool, session: bool, needsUnlock: bool, hidden: bool, deadline: real)
  {
    predicate Active() { session && enabled }

    predicate Locked() { Active() && needsUnlock }

    predicate Covered() { Active() && (hidden || needsUnlock) }

    predicate Suspended(now: Number) { now.Finite? && now.value < deadline }
  }

  function MinReal(a: real, b: real): real { if a < b then a else b }

  function NewLock(mirror: Option<string>, hasSession: bool): Lock {
    var enabled := mirror == Some("1");
    Lock(enabled, hasSession, enabled && hasSession, false, 0.0)
  }

  function Logout(l: Lock): Lock { Lock(false, false, false, false, 0.0) }

  function SetEnabled(l: Lock, enabled: bool, lockOnEnable: bool): Lock {
    var changed := l.enabled != enabled;
    if !enabled then l.(enabled := false, needsUnlock := false, deadline := 0.0)
    else if changed && l.session then l.(enabled := true, needsUnlock := lockOnEnable || l.hidden)
    else l.(enabled := true)
  }

  function SetSession(l: Lock, hasSession: bool): Lock {
    if !hasSession then Logout(l)
    else if !l.session then l.(session := true, needsUnlock := l.enabled)
    else l
  }

  function Hide(l: Lock, now: Number): Lock {
    l.(hidden := true, needsUnlock := l.needsUnlock || (l.Active() && !l.Suspended(now)))
  }

  function Show(l: Lock, now: Number): Lock {
    l.(hidden := false, deadline := 0.0, needsUnlock := l.needsUnlock || (l.hidden && l.Active() && !l.Suspended(now)))
  }

  function PageShow(l: Lock, persisted: bool, now: Number): Lock {
    Show(if persisted && l.Active() then l.(needsUnlock := true) else l, now)
  }

  predicate Suspends(l: Lock, ms: Number, now: Number, gesture: bool) {
    gesture && l.Active() && !l.Covered() && ms.Finite? && ms.value > 0.0 && now.Finite?
  }

  function Suspend(l: Lock, ms: Number, now: Number, gesture: bool): Lock {
    if !Suspends(l, ms, now, gesture) then l
    else
      var deadline := now.value + MinReal(ms.value, MAX_PRIVACY_SUSPENSION_MS);
      l.(deadline := if l.Suspended(now) then MinReal(l.deadline, deadline) else deadline)
  }

  function Expire(l: Lock, now: Number): Lock {
    if l.deadline != 0.0 && !l.Suspended(now)
    then l.(deadline := 0.0, needsUnlock := l.needsUnlock || (l.hidden && l.Active())) else l
  }

  function CancelSuspension(l: Lock): Lock {
    l.(deadline := 0.0, needsUnlock := l.needsUnlock || (l.hidden && l.Active()))
  }

  predicate Unlocks(l: Lock) { !l.hidden && l.session }

  function Unlock(l: Lock): Lock { if Unlocks(l) then l.(needsUnlock := false, deadline := 0.0) else l }

  class PrivacyLock {
    var privacyEnabled: bool
    var session: bool
    var needsUnlock: bool
    var hidden: bool
    var suspensionDeadline: real

    function Model(): Lock
      reads this
    {
      Lock(privacyEnabled, session, needsUnlock, hidden, suspensionDeadline)
    }

    constructor (mirror: Option<string>, hasSession: bool)
      ensures Model() == NewLock(mirror, hasSession)
    {
      privacyEnabled := mirror == Some("1");
      session := hasSession;
      needsUnlock := mirror == Some("1") && hasSession;
      hidden, suspensionDeadline := false, 0.0;
    }

    method EnablePrivacy(enabled: bool, lockOnEnable: bool)
      modifies this
      ensures Model() == SetEnabled(old(Model()), enabled, lockOnEnable)
    {
      var changed := privacyEnabled != enabled;
      privacyEnabled := enabled;
      if !enabled {
        needsUnlock := false;
        suspensionDeadline := 0.0;
      } else if changed && session {
        needsUnlock := lockOnEnable || hidden;
      }
    }

    method ChangeSession(hasSession: bool)
      modifies this
      ensures Model() == SetSession(old(Model()), hasSession)
    {
      if !hasSession {
        LogOut();
        return;
      }
      if !session {
        needsUnlock := privacyEnabled;
      }
      session := true;
    }

    method HidePage(now: Number)
      modifies this
      ensures Model() == Hide(old(Model()), now)
    {
      hidden := true;
      if session && privacyEnabled && !Model().Suspended(now) {
        needsUnlock := true;
      }
    }

    method ShowPage(now: Number)
      modifies this
      ensures Model() == Show(old(Model()), now)
    {
      if hidden && session && privacyEnabled && !Model().Suspended(now) {
        needsUnlock := true;
      }
      hidden := false;
      suspensionDeadline := 0.0;
    }

    method PageShown(persisted: bool, now: Number)
      modifies this
      ensures Model() == PageShow(old(Model()), persisted, now)
    {
      if persisted && session && privacyEnabled {
        needsUnlock := true;
      }
      ShowPage(now);
    }

    method SuspendLock(ms: Number, now: Number, gesture: bool) returns (granted: bool)
      modifies this
      ensures granted == Suspends(old(Model()), ms, now, gesture)
      ensures Model() == Suspend(old(Model()), ms, now, gesture)
    {
      if !gesture || !session || !privacyEnabled || Model().Covered() || ms.NonFinite? || ms.value <= 0.0 || now.NonFinite? {
        return false;
      }
      var until := now.value + MinReal(ms.value, MAX_PRIVACY_SUSPENSION_MS);
      suspensionDeadline := if Model().Suspended(now) then MinReal(suspensionDeadline, until) else until;
      granted := true;
    }

    method ExpireSuspension(now: Number)
      modifies this
      ensures Model() == Expire(old(Model()), now)
    {
      if suspensionDeadline != 0.0 && !Model().Suspended(now) {
        suspensionDeadline := 0.0;
        if hidden && session && privacyEnabled {
          needsUnlock := true;
        }
      }
    }

    method CancelExemption()
      modifies this
      ensures Model() == CancelSuspension(old(Model()))
    {
      suspensionDeadline := 0.0;
      if hidden && session && privacyEnabled {
        needsUnlock := true;
      }
    }

    method UnlockPage() returns (unlocked: bool)
      modifies this
      ensures unlocked == Unlocks(old(Model())) && Model() == Unlock(old(Model()))
    {
      if hidden || !session {
        return false;
      }
      needsUnlock, suspensionDeadline := false, 0.0;
      unlocked := true;
    }

    method LogOut()
      modifies this
      ensures Model() == Logout(old(Model()))
    {
      session, privacyEnabled, needsUnlock, hidden := false, false, false, false;
      suspensionDeadline := 0.0;
    }
  }

  // ---- runs ----

  datatype Event =
    | EnabledSet(enabled: bool, lockOnEnable: bool)
    | SessionSet(hasSession: bool)
    | Hidden(now: Number)
    | Shown(now: Number)
    | PageWasShown(persisted: bool, now: Number)
    | SuspendAsked(ms: Number, now: Number, gesture: bool)
    | ExpiryChecked(now: Number)
    | SuspensionCancelled
    | UnlockAsked
    | LoggedOut

  function Step(l: Lock, e: Event): Lock {
    match e
    case EnabledSet(enabled, lockOnEnable) => SetEnabled(l, enabled, lockOnEnable)
    case SessionSet(hasSession) => SetSession(l, hasSession)
    case Hidden(now) => Hide(l, now)
    case Shown(now) => Show(l, now)
    case PageWasShown(persisted, now) => PageShow(l, persisted, now)
    case SuspendAsked(ms, now, gesture) => Suspend(l, ms, now, gesture)
    case ExpiryChecked(now) => Expire(l, now)
    case SuspensionCancelled => CancelSuspension(l)
    case UnlockAsked => Unlock(l)
    case LoggedOut => Logout(l)
  }

  function Run(l: Lock, es: seq<Event>): Lock {
    if es == [] then l else Step(Run(l, es[..|es| - 1]), es[|es| - 1])
  }

  predicate EndsSession(e: Event) { e == LoggedOut || e == SessionSet(false) }

  /** What may open a locked screen: an unlock while the page is visible, switching the mode off, or a logout. */
  predicate Opens(l: Lock, e: Event) {
    (e.UnlockAsked? && !l.hidden) || (e.EnabledSet? && !e.enabled) || EndsSession(e)
  }

  lemma StepKeepsLocked(l: Lock, e: Event)
    requires l.Locked() && !Opens(l, e)
    ensures Step(l, e).Locked()
  {
  }

  /** Over any run: if a locked screen is open at the end, one of its steps was one of those three. */
  lemma {:induction false} LockedUntilOpened(l: Lock, es: seq<Event>)
    requires l.Locked() && forall i | 0 <= i < |es| :: !Opens(Run(l, es[..i]), es[i])
    ensures Run(l, es).Locked()
  {
    if es != [] {
      var n := |es| - 1;
      forall i | 0 <= i < n ensures es[..n][..i] == es[..i] {}
      LockedUntilOpened(l, es[..n]);
      StepKeepsLocked(Run(l, es[..n]), es[n]);
    }
  }

  // ---- away and back ----

  predicate BringsBack(e: Event) { e.Shown? || e.PageWasShown? }

  lemma {:induction false} StaysHidden(l: Lock, es: seq<Event>)
    requires l.hidden && forall e | e in es :: !BringsBack(e) && !EndsSession(e)
    ensures Run(l, es).hidden
  {
    if es != [] {
      StaysHidden(l, es[..|es| - 1]);
      assert es[|es| - 1] in es;
    }
  }

  /**
    * The page goes away, anything but a logout happens, the page comes back: if it comes back to an enabled
    * session and no exemption is still running, it is locked.
    */
  lemma AwayAndBackIsLocked(l: Lock, gone: Number, es: seq<Event>, back: Event, now: Number)
    requires forall e | e in es :: !BringsBack(e) && !EndsSession(e)
    requires back == Shown(now) || back == PageWasShown(true, now) || back == PageWasShown(false, now)
    requires var away := Run(Step(l, Hidden(gone)), es); away.Active() && !away.Suspended(now)
    ensures Step(Run(Step(l, Hidden(gone)), es), back).Locked()
  {
    StaysHidden(Step(l, Hidden(gone)), es);
  }

  /** Without the condition on logouts, exactly: a return locks an enabled session unless the page counts as visible already. */
  lemma ReturnLocksIff(l: Lock, now: Number)
    requires l.Active()
    ensures Show(l, now).Locked() <==> l.needsUnlock || (l.hidden && !l.Suspended(now))
  {
  }

  /** And a logout while hidden makes it count as visible: log in and enable without locking, and the return is open. */
  lemma LogoutWhileHiddenReturnsOpen(l: Lock, gone: Number, now: Number)
    ensures var away := Step(Step(Step(Step(l, Hidden(gone)), LoggedOut), SessionSet(true)), EnabledSet(true, false));
            away.Active() && away.deadline == 0.0 && !Step(away, Shown(now)).Locked()
  {
  }

  /** While the page is hidden an enabled session is covered, exempt or not, and nothing uncovers it. */
  lemma HiddenIsCovered(l: Lock, e: Event)
    requires l.Active() && l.hidden && Step(l, e).Active() && !BringsBack(e)
    ensures Step(l, e).Covered() && Step(l, e).hidden
  {
  }

  // ---- exemptions ----

  /** When the running exemption was first granted; `None` once it has ended. */
  datatype Watched = Watched(lock: Lock, since: Option<real>)

  function Watch(w: Watched, e: Event): Watched {
    var l' := Step(w.lock, e);
    if e.SuspendAsked? && Suspends(w.lock, e.ms, e.now, e.gesture) && !w.lock.Suspended(e.now)
    then Watched(l', Some(e.now.value))
    else Watched(l', if l'.deadline == 0.0 then None else w.since)
  }

  function WatchRun(mirror: Option<string>, hasSession: bool, es: seq<Event>): Watched {
    if es == [] then Watched(NewLock(mirror, hasSession), None)
    else Watch(WatchRun(mirror, hasSession, es[..|es| - 1]), es[|es| - 1])
  }

  /** A repeated request never moves the end of a running exemption back. */
  lemma SuspendNeverExtends(l: Lock, ms: Number, now: Number, gesture: bool)
    requires l.Suspended(now)
    ensures Suspend(l, ms, now, gesture).deadline <= l.deadline
  {
  }

  ghost predicate Bounded(w: Watched) {
    w.lock.deadline != 0.0 ==> w.since.Some? && w.lock.deadline <= w.since.value + MAX_PRIVACY_SUSPENSION_MS
  }

  /** The caller's clock is monotonic and starts at zero. */
  predicate ClockOk(e: Event) { e.SuspendAsked? && e.now.Finite? ==> e.now.value >= 0.0 }

  lemma {:induction false} WatchBounded(mirror: Option<string>, hasSession: bool, es: seq<Event>)
    requires forall e | e in es :: ClockOk(e)
    ensures Bounded(WatchRun(mirror, hasSession, es))
    ensures WatchRun(mirror, hasSession, es).lock == Run(NewLock(mirror, hasSession), es)
  {
    if es != [] {
      WatchBounded(mirror, hasSession, es[..|es| - 1]);
      assert es[|es| - 1] in es;
      WatchStep(WatchRun(mirror, hasSession, es[..|es| - 1]), es[|es| - 1]);
    }
  }

  lemma WatchStep(w: Watched, e: Event)
    requires Bounded(w) && ClockOk(e)
    ensures Bounded(Watch(w, e)) && Watch(w, e).lock == Step(w.lock, e)
  {
  }

  /** At no moment of any run does an exemption last a minute or more after it was first granted. */
  lemma ExemptionsLastAMinute(mirror: Option<string>, hasSession: bool, es: seq<Event>, now: Number)
    requires now.Finite? && now.value >= 0.0 && forall e | e in es :: ClockOk(e)
    requires Run(NewLock(mirror, hasSession), es).Suspended(now)
    ensures var w := WatchRun(mirror, hasSession, es);
            w.since.Some? && now.value < w.since.value + MAX_PRIVACY_SUSPENSION_MS
  {
    WatchBounded(mirror, hasSession, es);
  }

  /** One return uses an exemption up: the next trip away locks unless a new one was granted. */
  lemma OneReturnPerExemption(l: Lock, now: Number, gone: Number)
    requires l.Active() && (gone.Finite? ==> gone.value >= 0.0)
    ensures Hide(Show(l, now), gone).Locked()
  {
  }

  /** An exemption is only ever granted on a visible, unlocked screen, by a gesture. */
  lemma GrantNeedsAnOpenScreen(l: Lock, e: Event, now: Number)
    requires now.Finite? && now.value >= 0.0 && !l.Suspended(now) && Step(l, e).Suspended(now)
    ensures e.SuspendAsked? && e.gesture && l.Active() && !l.hidden && !l.needsUnlock
  {
  }
}
