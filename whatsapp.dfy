/**
 * `send_whatsapp_message` and `_ensure_logged_in` (send_whatsapp.py) as a
 * sequence of external steps, each of which may raise. Browser behaviour is
 * not modelled: which steps raise during a call is a parameter (a fault plan).
 * Every step stands for one source location, so it happens at most once per call.
 */
module WhatsApp {
  import Url

  datatype Step =
    | StartDriver                  // entering `with sync_playwright()` (line 54)
    | LaunchBrowser                // line 55
    | NewContext(fromState: bool)  // lines 58-61: from whatsapp_state.json when it exists
    | OpenLoginPage                // line 29
    | LoadHome                     // line 30
    | ProbeMarker                  // line 34: the search box within 8 s
    | CloseProbePage               // line 35
    | AwaitMarker                  // line 40: the search box, without a timeout (QR pairing)
    | SaveSession                  // line 43: context.storage_state(path=...)
    | ClosePairingPage             // line 44
    | OpenChatPage                 // line 65
    | LoadChat(url: string)        // line 73
    | AwaitPanel                   // line 76: the conversation panel within 20 s
    | PressEnter                   // line 79
    | Pause                        // line 82: the random 1.5-2.5 s delay
    | RefreshSession               // line 83
    | CloseBrowser                 // line 84
    | StopDriver                   // leaving the `with` block, on every path
  {
    /** The steps that write whatsapp_state.json. */
    predicate WritesSession() {
      SaveSession? || RefreshSession?
    }
  }

  /** The steps inside the `try` of `_ensure_logged_in` (lines 33-36): their exception is caught. */
  const Caught: set<Step> := {ProbeMarker, CloseProbePage}

  /** The state of a call so far: the steps performed and whether an exception is propagating. */
  datatype Run = Run(trace: seq<Step>, raised: bool)

  /** Performs `s` unless an exception is already propagating; a step in `plan` raises. */
  function Do(r: Run, s: Step, plan: set<Step>): Run {
    if r.raised then r else Run(r.trace + [s], s in plan)
  }

  /** Performs `steps` one after the other, as consecutive statements of the source do. */
  function DoAll(r: Run, steps: seq<Step>, plan: set<Step>): Run
    decreases |steps|
  {
    if steps == [] then r else DoAll(Do(r, steps[0], plan), steps[1..], plan)
  }

  /** Whether whatsapp_state.json exists after `trace`: a write that raised changed nothing. */
  predicate StoredAfter(stored: bool, trace: seq<Step>, plan: set<Step>) {
    || stored
    || (SaveSession in trace && SaveSession !in plan)
    || (RefreshSession in trace && RefreshSession !in plan)
  }

  // ------------------------------------------------------- the source's blocks

  function ContextSteps(stored: bool): seq<Step> {
    [LaunchBrowser, NewContext(stored)]
  }

  const HomeSteps: seq<Step> := [OpenLoginPage, LoadHome]
  const ProbeSteps: seq<Step> := [ProbeMarker, CloseProbePage]
  const PairingSteps: seq<Step> := [AwaitMarker, SaveSession, ClosePairingPage]

  function ChatSteps(phone: string, message: string): seq<Step> {
    [OpenChatPage, LoadChat(Url.DeepLink(phone, message)), AwaitPanel, PressEnter, Pause,
     RefreshSession, CloseBrowser]
  }

  /** `_ensure_logged_in` (lines 24-44). */
  function LoggedIn(r: Run, plan: set<Step>): Run {
    var home := DoAll(r, HomeSteps, plan);
    if home.raised then home
    else
      var probed := DoAll(home, ProbeSteps, plan);
      if !probed.raised then probed
      else DoAll(probed.(raised := false), PairingSteps, plan)
  }

  /**
   * One call of `send_whatsapp_message` (lines 47-91) when the steps in `plan`
   * raise and `stored` says whether whatsapp_state.json exists. The call
   * returns `!raised`: the `except Exception` at line 89 turns every exception
   * into `False`.
   */
  function SendRun(plan: set<Step>, stored: bool, phone: string, message: string): Run {
    var entered := Do(Run([], false), StartDriver, plan);
    if entered.raised then entered
    else
      var context := DoAll(entered, ContextSteps(stored), plan);
      var body := DoAll(LoggedIn(context, plan), ChatSteps(phone, message), plan);
      Run(body.trace + [StopDriver], body.raised || StopDriver in plan)
  }

  // ------------------------------------------------ the reference description

  /** Whether some step of `steps` is in `fails`. */
  predicate Halts(steps: seq<Step>, fails: set<Step>) {
    exists k :: 0 <= k < |steps| && steps[k] in fails
  }

  /** `steps` up to and including the first one in `fails`. */
  function UpTo(steps: seq<Step>, fails: set<Step>): seq<Step>
    decreases |steps|
  {
    if steps == [] then []
    else if steps[0] in fails then [steps[0]]
    else [steps[0]] + UpTo(steps[1..], fails)
  }

  /** When no step fails, `UpTo` is all of `steps`. */
  lemma {:induction false} UpToWhole(steps: seq<Step>, fails: set<Step>)
    requires !Halts(steps, fails)
    ensures UpTo(steps, fails) == steps
    decreases |steps|
  {
    if steps != [] {
      HaltsCons(steps, fails);
      UpToWhole(steps[1..], fails);
      assert [steps[0]] + steps[1..] == steps;
    }
  }

  /** `UpTo` is the prefix that stops at the first failing step, or everything. */
  lemma {:induction false} UpToPrefix(steps: seq<Step>, fails: set<Step>)
    ensures var t := UpTo(steps, fails);
      && |t| <= |steps| && t == steps[..|t|]
      && (forall k :: 0 <= k < |t| - 1 ==> t[k] !in fails)
      && (Halts(steps, fails) <==> t != [] && t[|t| - 1] in fails)
      && (!Halts(steps, fails) ==> t == steps)
    decreases |steps|
  {
    if steps != [] {
      HaltsCons(steps, fails);
      UpToPrefix(steps[1..], fails);
      var t := UpTo(steps[1..], fails);
      if steps[0] !in fails {
        assert UpTo(steps, fails) == [steps[0]] + t;
        assert forall k :: 1 <= k < |t| + 1 ==> ([steps[0]] + t)[k] == t[k - 1];
        assert steps[..|t| + 1] == [steps[0]] + steps[1..][..|t|];
      }
    }
  }

  /** The steps that raise out of `_ensure_logged_in`. */
  function Raising(plan: set<Step>): set<Step> {
    plan - Caught
  }

  /** The login steps a call goes through: the pairing wait only after the probe failed. */
  function LoginPath(plan: set<Step>): seq<Step> {
    if ProbeMarker in plan then HomeSteps + [ProbeMarker] + PairingSteps
    else if CloseProbePage in plan then HomeSteps + ProbeSteps + PairingSteps
    else HomeSteps + ProbeSteps
  }

  /** Everything between entering and leaving the `with` block when nothing raises. */
  function BodyPath(plan: set<Step>, stored: bool, phone: string, message: string): seq<Step> {
    ContextSteps(stored) + LoginPath(plan) + ChatSteps(phone, message)
  }

  /**
   * The reference description of a call: enter the `with` block; go along the
   * path until the first step that raises out of it; leave the `with` block.
   */
  function Reference(plan: set<Step>, stored: bool, phone: string, message: string): Run {
    if StartDriver in plan then Run([StartDriver], true)
    else
      var path := BodyPath(plan, stored, phone, message);
      Run([StartDriver] + UpTo(path, Raising(plan)) + [StopDriver],
          Halts(path, Raising(plan)) || StopDriver in plan)
  }

  // --------------------------------------------------------- connecting the two

  /** Going along `steps` from `r` until the first one in `fails`, which raises. */
  function Follow(r: Run, steps: seq<Step>, fails: set<Step>): Run {
    if r.raised then r else Run(r.trace + UpTo(steps, fails), Halts(steps, fails))
  }

  lemma {:induction false} DoAllUpTo(r: Run, steps: seq<Step>, plan: set<Step>)
    ensures DoAll(r, steps, plan) == Follow(r, steps, plan)
    decreases |steps|
  {
    if steps == [] {
      assert r.trace + [] == r.trace;
    } else if r.raised {
      DoAllUpTo(r, steps[1..], plan);
    } else {
      var r' := Run(r.trace + [steps[0]], steps[0] in plan);
      assert DoAll(r, steps, plan) == DoAll(r', steps[1..], plan);
      DoAllUpTo(r', steps[1..], plan);
      if steps[0] in plan {
        assert Halts(steps, plan) by { assert steps[0] in plan; }
      } else {
        HaltsCons(steps, plan);
        assert r'.trace + UpTo(steps[1..], plan) == r.trace + UpTo(steps, plan);
      }
    }
  }

  /** Going along two paths one after the other is going along their concatenation. */
  lemma Compose(r: Run, a: seq<Step>, b: seq<Step>, fails: set<Step>)
    ensures Follow(Follow(r, a, fails), b, fails) == Follow(r, a + b, fails)
  {
    UpToAppend(a, b, fails);
    if !r.raised && !Halts(a, fails) {
      UpToWhole(a, fails);
      assert (r.trace + a) + UpTo(b, fails) == r.trace + (a + UpTo(b, fails));
    }
  }

  lemma DoAllFrom(r: Run, steps: seq<Step>, k: nat, plan: set<Step>)
    requires k < |steps|
    ensures DoAll(r, steps[k..], plan) == DoAll(Do(r, steps[k], plan), steps[k + 1..], plan)
  {
    assert steps[k..][0] == steps[k] && steps[k..][1..] == steps[k + 1..];
  }

  lemma DoAllTwo(r: Run, a: Step, b: Step, plan: set<Step>)
    ensures DoAll(r, [a, b], plan) == Do(Do(r, a, plan), b, plan)
  {
    assert [a, b][1..] == [b] && [b][1..] == [];
    assert DoAll(r, [a, b], plan) == DoAll(Do(r, a, plan), [b], plan);
    assert DoAll(Do(r, a, plan), [b], plan) == DoAll(Do(Do(r, a, plan), b, plan), [], plan);
  }

  lemma DoAllThree(r: Run, a: Step, b: Step, c: Step, plan: set<Step>)
    ensures DoAll(r, [a, b, c], plan) == Do(Do(Do(r, a, plan), b, plan), c, plan)
  {
    assert [a, b, c][1..] == [b, c];
    DoAllTwo(Do(r, a, plan), b, c, plan);
  }

  lemma DoAllChat(r: Run, phone: string, message: string, plan: set<Step>)
    ensures DoAll(r, ChatSteps(phone, message), plan)
         == Do(Do(Do(Do(Do(Do(Do(r, OpenChatPage, plan), LoadChat(Url.DeepLink(phone, message)), plan),
              AwaitPanel, plan), PressEnter, plan), Pause, plan), RefreshSession, plan), CloseBrowser, plan)
  {
    var c := ChatSteps(phone, message);
    assert c[0..] == c;
    var r1 := Do(r, c[0], plan);
    DoAllFrom(r, c, 0, plan);
    var r2 := Do(r1, c[1], plan);
    DoAllFrom(r1, c, 1, plan);
    var r3 := Do(r2, c[2], plan);
    DoAllFrom(r2, c, 2, plan);
    var r4 := Do(r3, c[3], plan);
    DoAllFrom(r3, c, 3, plan);
    var r5 := Do(r4, c[4], plan);
    DoAllFrom(r4, c, 4, plan);
    var r6 := Do(r5, c[5], plan);
    DoAllFrom(r5, c, 5, plan);
    DoAllFrom(r6, c, 6, plan);
    assert c[7..] == [];
  }

  lemma {:induction false} UpToAppend(a: seq<Step>, b: seq<Step>, fails: set<Step>)
    ensures UpTo(a + b, fails) == if Halts(a, fails) then UpTo(a, fails) else a + UpTo(b, fails)
    ensures Halts(a + b, fails) == (Halts(a, fails) || Halts(b, fails))
    decreases |a|
  {
    if a == [] {
      assert a + b == b;
      assert a + UpTo(b, fails) == UpTo(b, fails);
    } else {
      assert (a + b)[0] == a[0] && (a + b)[1..] == a[1..] + b;
      UpToAppend(a[1..], b, fails);
      HaltsCons(a, fails);
      HaltsCons(a + b, fails);
      if a[0] !in fails && !Halts(a, fails) {
        assert [a[0]] + (a[1..] + UpTo(b, fails)) == a + UpTo(b, fails);
      }
    }
  }

  lemma HaltsCons(s: seq<Step>, fails: set<Step>)
    requires s != []
    ensures Halts(s, fails) == (s[0] in fails || Halts(s[1..], fails))
  {
    if Halts(s[1..], fails) {
      var k :| 0 <= k < |s[1..]| && s[1..][k] in fails;
      assert s[k + 1] in fails;
    }
    if Halts(s, fails) && s[0] !in fails {
      var k :| 0 <= k < |s| && s[k] in fails;
      assert s[1..][k - 1] in fails;
    }
  }

  /** Only the steps' own membership matters to `UpTo` and `Halts`. */
  lemma {:induction false} UpToSame(steps: seq<Step>, a: set<Step>, b: set<Step>)
    requires forall k :: 0 <= k < |steps| ==> (steps[k] in a <==> steps[k] in b)
    ensures UpTo(steps, a) == UpTo(steps, b) && Halts(steps, a) == Halts(steps, b)
    decreases |steps|
  {
    if steps != [] {
      assert forall k :: 0 <= k < |steps[1..]| ==> steps[1..][k] == steps[k + 1];
      UpToSame(steps[1..], a, b);
      HaltsCons(steps, a);
      HaltsCons(steps, b);
    }
  }

  /** Outside the probe every step raises out of the login block exactly when it fails. */
  lemma Uncaught(r: Run, steps: seq<Step>, plan: set<Step>)
    requires ProbeMarker !in steps && CloseProbePage !in steps
    ensures DoAll(r, steps, plan) == Follow(r, steps, Raising(plan))
  {
    DoAllUpTo(r, steps, plan);
    UpToSame(steps, plan, Raising(plan));
  }

  /** The probe failed at its first step: pairing follows the home page directly. */
  lemma ProbeMarkerPath(r: Run, plan: set<Step>)
    requires ProbeMarker in plan
    ensures LoggedIn(r, plan) == Follow(r, LoginPath(plan), Raising(plan))
  {
    var F := Raising(plan);
    Uncaught(r, HomeSteps, plan);
    var home := DoAll(r, HomeSteps, plan);
    if !home.raised {
      DoAllUpTo(home, ProbeSteps, plan);
      assert ProbeSteps[0] in plan;
      assert Follow(home, ProbeSteps, plan) == Run(home.trace + [ProbeMarker], true);
      var resumed := Run(home.trace + [ProbeMarker], false);
      assert [ProbeMarker][0] !in F && [ProbeMarker][1..] == [];
      assert resumed == Follow(home, [ProbeMarker], F);
      Uncaught(resumed, PairingSteps, plan);
    }
    assert LoggedIn(r, plan) == Follow(Follow(Follow(r, HomeSteps, F), [ProbeMarker], F), PairingSteps, F);
    Compose(r, HomeSteps, [ProbeMarker], F);
    Compose(r, HomeSteps + [ProbeMarker], PairingSteps, F);
  }

  /** No exception of the probe leaves the login block. */
  lemma ProbeCaught(plan: set<Step>)
    ensures UpTo(ProbeSteps, Raising(plan)) == ProbeSteps && !Halts(ProbeSteps, Raising(plan))
  {
    assert forall k :: 0 <= k < |ProbeSteps| ==> ProbeSteps[k] in Caught;
    UpToWhole(ProbeSteps, Raising(plan));
  }

  /** The probe failed when closing its page: pairing follows both probe steps. */
  lemma CloseProbePath(r: Run, plan: set<Step>)
    requires ProbeMarker !in plan && CloseProbePage in plan
    ensures LoggedIn(r, plan) == Follow(r, LoginPath(plan), Raising(plan))
  {
    var F := Raising(plan);
    Uncaught(r, HomeSteps, plan);
    var home := DoAll(r, HomeSteps, plan);
    if !home.raised {
      DoAllTwo(home, ProbeMarker, CloseProbePage, plan);
      var resumed := Run(home.trace + ProbeSteps, false);
      assert home.trace + [ProbeMarker] + [CloseProbePage] == resumed.trace;
      ProbeCaught(plan);
      Uncaught(resumed, PairingSteps, plan);
    }
    assert LoggedIn(r, plan) == Follow(Follow(Follow(r, HomeSteps, F), ProbeSteps, F), PairingSteps, F);
    Compose(r, HomeSteps, ProbeSteps, F);
    Compose(r, HomeSteps + ProbeSteps, PairingSteps, F);
  }

  /** The probe succeeded: the login block ends after it. */
  lemma ProbeSucceededPath(r: Run, plan: set<Step>)
    requires ProbeMarker !in plan && CloseProbePage !in plan
    ensures LoggedIn(r, plan) == Follow(r, LoginPath(plan), Raising(plan))
  {
    var F := Raising(plan);
    Uncaught(r, HomeSteps, plan);
    var home := DoAll(r, HomeSteps, plan);
    if !home.raised {
      DoAllTwo(home, ProbeMarker, CloseProbePage, plan);
      assert home.trace + [ProbeMarker] + [CloseProbePage] == home.trace + ProbeSteps;
      ProbeCaught(plan);
    }
    assert LoggedIn(r, plan) == Follow(Follow(r, HomeSteps, F), ProbeSteps, F);
    Compose(r, HomeSteps, ProbeSteps, F);
  }

  /** In the login block the probe's exception is caught and the pairing wait follows. */
  lemma LoggedInFollowsPath(r: Run, plan: set<Step>)
    ensures LoggedIn(r, plan) == Follow(r, LoginPath(plan), Raising(plan))
  {
    if ProbeMarker in plan {
      ProbeMarkerPath(r, plan);
    } else if CloseProbePage in plan {
      CloseProbePath(r, plan);
    } else {
      ProbeSucceededPath(r, plan);
    }
  }

  /** `SendRun`, which follows the source block by block, is the reference description. */
  lemma SendRunIsReference(plan: set<Step>, stored: bool, phone: string, message: string)
    ensures SendRun(plan, stored, phone, message) == Reference(plan, stored, phone, message)
  {
    if StartDriver !in plan {
      var F := Raising(plan);
      var entered := Run([StartDriver], false);
      assert [] + [StartDriver] == [StartDriver];
      var cs, login, chat := ContextSteps(stored), LoginPath(plan), ChatSteps(phone, message);
      Uncaught(entered, cs, plan);
      var context := DoAll(entered, cs, plan);
      LoggedInFollowsPath(context, plan);
      var logged := LoggedIn(context, plan);
      Uncaught(logged, chat, plan);
      Compose(entered, cs, login, F);
      Compose(entered, cs + login, chat, F);
      var body := Follow(entered, cs + login + chat, F);
      assert SendRun(plan, stored, phone, message) == Run(body.trace + [StopDriver], body.raised || StopDriver in plan);
    }
  }

  // ------------------------------------------------------------- properties

  lemma {:induction false} UpToIn(steps: seq<Step>, fails: set<Step>, x: Step)
    requires x in UpTo(steps, fails)
    ensures x in steps
    decreases |steps|
  {
    if steps != [] && steps[0] != x && steps[0] !in fails {
      UpToIn(steps[1..], fails, x);
    }
  }

  /** The steps of the probe that a failed probe got through. */
  function ProbeTried(plan: set<Step>): seq<Step> {
    if ProbeMarker in plan then [ProbeMarker] else ProbeSteps
  }

  lemma FailedProbePath(plan: set<Step>, stored: bool, phone: string, message: string)
    requires ProbeMarker in plan || CloseProbePage in plan
    ensures BodyPath(plan, stored, phone, message)
         == (ContextSteps(stored) + HomeSteps) + (ProbeTried(plan) + (PairingSteps + ChatSteps(phone, message)))
    ensures !Halts(ProbeTried(plan), Raising(plan))
  {
    var cs, chat, x := ContextSteps(stored), ChatSteps(phone, message), ProbeTried(plan);
    assert LoginPath(plan) == HomeSteps + x + PairingSteps;
    assert (cs + (HomeSteps + x + PairingSteps)) + chat
        == (cs + HomeSteps) + (x + (PairingSteps + chat));
    assert forall k :: 0 <= k < |x| ==> x[k] in Caught;
  }

  lemma SucceededProbePath(plan: set<Step>, stored: bool, phone: string, message: string)
    requires ProbeMarker !in plan && CloseProbePage !in plan
    ensures BodyPath(plan, stored, phone, message)
         == (ContextSteps(stored) + HomeSteps) + (ProbeSteps + ChatSteps(phone, message))
  {
    var cs, chat := ContextSteps(stored), ChatSteps(phone, message);
    assert (cs + (HomeSteps + ProbeSteps)) + chat == (cs + HomeSteps) + (ProbeSteps + chat);
  }

  /**
   * The call returns True exactly when no step on its path raises: starting the
   * driver, the browser and context, the home page, the pairing wait when the
   * probe failed, the chat, and leaving the `with` block.
   */
  lemma SentIffNothingRaised(plan: set<Step>, stored: bool, phone: string, message: string)
    ensures !Reference(plan, stored, phone, message).raised
        <==> !Halts([StartDriver] + BodyPath(plan, stored, phone, message) + [StopDriver], Raising(plan))
  {
    var path, F := BodyPath(plan, stored, phone, message), Raising(plan);
    UpToAppend([StartDriver] + path, [StopDriver], F);
    UpToAppend([StartDriver], path, F);
    HaltsCons([StartDriver], F);
    HaltsCons([StopDriver], F);
  }

  /**
   * The driver is started first; when it started, the call goes along its path
   * without raising up to the last step it attempts, which raised unless the
   * call returned True, and then leaves the `with` block.
   */
  lemma CallFollowsPath(plan: set<Step>, stored: bool, phone: string, message: string)
    ensures var r := Reference(plan, stored, phone, message);
      && r.trace != [] && r.trace[0] == StartDriver
      && (StartDriver in plan ==> r.raised && r.trace == [StartDriver])
      && (StartDriver !in plan ==>
            var path, t := BodyPath(plan, stored, phone, message), r.trace[1..|r.trace| - 1];
            && |r.trace| >= 2 && r.trace[|r.trace| - 1] == StopDriver
            && |t| <= |path| && t == path[..|t|]
            && (forall k :: 0 <= k < |t| - 1 ==> t[k] !in Raising(plan))
            && (r.raised && StopDriver !in plan ==> t != [] && t[|t| - 1] in Raising(plan))
            && (!r.raised ==> t == path))
  {
    var r := Reference(plan, stored, phone, message);
    if StartDriver !in plan {
      var path, F := BodyPath(plan, stored, phone, message), Raising(plan);
      UpToPrefix(path, F);
      assert r.trace[1..|r.trace| - 1] == UpTo(path, F);
    }
  }

  /** The driver is started once, first, and stopped once, last, whenever it started. */
  lemma DriverReleasedOnce(plan: set<Step>, stored: bool, phone: string, message: string)
    ensures var r := Reference(plan, stored, phone, message);
      && r.trace != [] && r.trace[0] == StartDriver && StartDriver !in r.trace[1..]
      && (StartDriver in plan ==> StopDriver !in r.trace)
      && (StartDriver !in plan ==>
            r.trace[|r.trace| - 1] == StopDriver && StopDriver !in r.trace[..|r.trace| - 1])
  {
    if StartDriver !in plan {
      Bracketed(BodyPath(plan, stored, phone, message), Raising(plan));
    }
  }

  /** Bracketing a path that neither starts nor stops the driver. */
  lemma Bracketed(path: seq<Step>, fails: set<Step>)
    requires StartDriver !in path && StopDriver !in path
    ensures var trace := [StartDriver] + UpTo(path, fails) + [StopDriver];
      StartDriver !in trace[1..] && StopDriver !in trace[..|trace| - 1]
  {
    var t := UpTo(path, fails);
    var trace := [StartDriver] + t + [StopDriver];
    assert trace[1..] == t + [StopDriver];
    assert trace[..|trace| - 1] == [StartDriver] + t;
    if StartDriver in t {
      UpToIn(path, fails, StartDriver);
    }
    if StopDriver in t {
      UpToIn(path, fails, StopDriver);
    }
  }

  /**
   * A call that returned True opened the chat at the deep link, pressed Enter,
   * and then wrote whatsapp_state.json (line 83) without an exception.
   */
  lemma SentMeansDelivered(plan: set<Step>, stored: bool, phone: string, message: string)
    ensures var r := Reference(plan, stored, phone, message);
      !r.raised ==> LoadChat(Url.DeepLink(phone, message)) in r.trace
    ensures var r := Reference(plan, stored, phone, message);
      !r.raised ==> PressEnter in r.trace && PressEnter !in plan
    ensures var r := Reference(plan, stored, phone, message);
      !r.raised ==> RefreshSession in r.trace && RefreshSession !in plan
    ensures var r := Reference(plan, stored, phone, message);
      !r.raised ==> StoredAfter(stored, r.trace, plan)
  {
    var r := Reference(plan, stored, phone, message);
    if !r.raised {
      var path, F := BodyPath(plan, stored, phone, message), Raising(plan);
      ChatOnPath(plan, stored, phone, message);
      Unfailed(path, F, LoadChat(Url.DeepLink(phone, message)));
      Unfailed(path, F, PressEnter);
      Unfailed(path, F, RefreshSession);
    }
  }

  lemma ChatOnPath(plan: set<Step>, stored: bool, phone: string, message: string)
    ensures var path := BodyPath(plan, stored, phone, message);
      LoadChat(Url.DeepLink(phone, message)) in path && PressEnter in path && RefreshSession in path
  {
    var chat := ChatSteps(phone, message);
    assert chat[1] == LoadChat(Url.DeepLink(phone, message)) && chat[3] == PressEnter && chat[5] == RefreshSession;
  }

  /** A step on a path that does not raise is performed, and did not fail. */
  lemma Unfailed(steps: seq<Step>, fails: set<Step>, x: Step)
    requires !Halts(steps, fails) && x in steps
    ensures x in [StartDriver] + UpTo(steps, fails) + [StopDriver] && x !in fails
  {
    UpToWhole(steps, fails);
    var k :| 0 <= k < |steps| && steps[k] == x;
    assert steps[k] !in fails;
  }

  /**
   * The converse does not hold: when only a step after the Enter press raises
   * (the pause, the session refresh, closing the browser, or leaving the `with`
   * block), the chat was loaded and Enter pressed, yet the call returns False.
   */
  lemma DeliveredYetFalse(s: Step, stored: bool, phone: string, message: string)
    requires s == Pause || s == RefreshSession || s == CloseBrowser || s == StopDriver
    ensures var r := Reference({s}, stored, phone, message);
      && r.raised
      && LoadChat(Url.DeepLink(phone, message)) in r.trace
      && PressEnter in r.trace && PressEnter !in {s}
  {
    var plan, url := {s}, Url.DeepLink(phone, message);
    var F := Raising(plan);
    assert F == {s};
    var a, b := DeliveredPath(s, stored, phone, message);
    Unreached(a, s);
    var r := Reference(plan, stored, phone, message);
    assert r.trace == [StartDriver] + UpTo(a + b, F) + [StopDriver];
    Passed(a, b, F, LoadChat(url));
    Passed(a, b, F, PressEnter);
    if s != StopDriver {
      UpToAppend(a, b, F);
      assert b[if s == Pause then 0 else if s == RefreshSession then 1 else 2] == s;
    }
  }

  /** The path of `DeliveredYetFalse`: a first part that holds the link load and the Enter press but not `s`, then the rest of the chat. */
  lemma DeliveredPath(s: Step, stored: bool, phone: string, message: string) returns (a: seq<Step>, b: seq<Step>)
    requires s == Pause || s == RefreshSession || s == CloseBrowser || s == StopDriver
    ensures BodyPath({s}, stored, phone, message) == a + b && b == [Pause, RefreshSession, CloseBrowser]
    ensures s !in a && LoadChat(Url.DeepLink(phone, message)) in a && PressEnter in a
  {
    var url := Url.DeepLink(phone, message);
    a := [LaunchBrowser, NewContext(stored), OpenLoginPage, LoadHome, ProbeMarker, CloseProbePage,
          OpenChatPage, LoadChat(url), AwaitPanel, PressEnter];
    b := [Pause, RefreshSession, CloseBrowser];
    assert LoginPath({s}) == HomeSteps + ProbeSteps;
    assert a[7] == LoadChat(url) && a[9] == PressEnter;
  }

  /** A step of a first part that does not raise is performed. */
  lemma Passed(a: seq<Step>, b: seq<Step>, fails: set<Step>, x: Step)
    requires !Halts(a, fails) && x in a
    ensures x in [StartDriver] + UpTo(a + b, fails) + [StopDriver]
  {
    UpToAppend(a, b, fails);
    var k :| 0 <= k < |a| && a[k] == x;
    assert ([StartDriver] + (a + UpTo(b, fails)) + [StopDriver])[k + 1] == x;
  }

  /** A path without `s` does not halt on `{s}`. */
  lemma Unreached(a: seq<Step>, s: Step)
    requires s !in a
    ensures !Halts(a, {s})
  {
  }

  /** The context is created from the saved session exactly when whatsapp_state.json existed. */
  lemma ContextFromState(plan: set<Step>, stored: bool, phone: string, message: string, fromState: bool)
    ensures NewContext(fromState) in Reference(plan, stored, phone, message).trace ==> fromState == stored
  {
    if NewContext(fromState) in Reference(plan, stored, phone, message).trace {
      OnPath(BodyPath(plan, stored, phone, message), Raising(plan), NewContext(fromState));
      ContextOnPath(plan, stored, phone, message, fromState);
    }
  }

  lemma ContextOnPath(plan: set<Step>, stored: bool, phone: string, message: string, fromState: bool)
    requires NewContext(fromState) in BodyPath(plan, stored, phone, message)
    ensures fromState == stored
  {
    var c := NewContext(fromState);
    assert c !in HomeSteps && c !in ProbeSteps && c !in PairingSteps && c !in [ProbeMarker];
    assert c !in LoginPath(plan);
    assert c !in ChatSteps(phone, message);
    assert BodyPath(plan, stored, phone, message)
        == ContextSteps(stored) + (LoginPath(plan) + ChatSteps(phone, message));
  }

  /**
   * After a call that returned True, every later call whose driver and browser
   * start creates its context from the saved session: no second QR pairing is
   * forced by a missing file.
   */
  lemma NextCallReusesSession(plan: set<Step>, stored: bool, phone: string, message: string,
                              plan': set<Step>, phone': string, message': string)
    requires !Reference(plan, stored, phone, message).raised
    requires StartDriver !in plan' && LaunchBrowser !in plan'
    ensures var stored' := StoredAfter(stored, Reference(plan, stored, phone, message).trace, plan);
      NewContext(true) in Reference(plan', stored', phone', message').trace
  {
    assert StoredAfter(stored, Reference(plan, stored, phone, message).trace, plan) by {
      SentMeansDelivered(plan, stored, phone, message);
    }
    ContextFromSaved(plan', phone', message');
  }

  /** With the session file present, a call whose driver and browser start creates its context from it. */
  lemma ContextFromSaved(plan': set<Step>, phone': string, message': string)
    requires StartDriver !in plan' && LaunchBrowser !in plan'
    ensures NewContext(true) in Reference(plan', true, phone', message').trace
  {
    var cs, F := ContextSteps(true), Raising(plan');
    var rest := LoginPath(plan') + ChatSteps(phone', message');
    assert BodyPath(plan', true, phone', message') == cs + rest;
    UpToAppend(cs, rest, F);
    assert UpTo(cs, F) == [LaunchBrowser] + UpTo([NewContext(true)], F);
    assert cs[1..] == [NewContext(true)];
    assert UpTo([NewContext(true)], F)[0] == NewContext(true);
    assert UpTo(cs + rest, F)[1] == NewContext(true);
  }

  /** Apart from the driver, a call performs only steps of its path. */
  lemma OnPath(path: seq<Step>, fails: set<Step>, x: Step)
    requires x != StartDriver && x != StopDriver
    requires x in [StartDriver] + UpTo(path, fails) + [StopDriver]
    ensures x in path
  {
    UpToIn(path, fails, x);
  }

  /** When the probe finds the search box, the call never waits for pairing or saves from it. */
  lemma FastPathSkipsPairing(plan: set<Step>, stored: bool, phone: string, message: string)
    requires ProbeMarker !in plan && CloseProbePage !in plan
    ensures var r := Reference(plan, stored, phone, message);
      AwaitMarker !in r.trace && SaveSession !in r.trace && ClosePairingPage !in r.trace
  {
    var path, F := BodyPath(plan, stored, phone, message), Raising(plan);
    SucceededProbePath(plan, stored, phone, message);
    assert AwaitMarker !in path && SaveSession !in path && ClosePairingPage !in path;
    var trace := Reference(plan, stored, phone, message).trace;
    if AwaitMarker in trace { OnPath(path, F, AwaitMarker); }
    if SaveSession in trace { OnPath(path, F, SaveSession); }
    if ClosePairingPage in trace { OnPath(path, F, ClosePairingPage); }
  }

  /**
   * On a path `pre + (x + tail)` whose `tail` starts with the pairing wait and
   * the save, and whose `x` does not raise, the wait is reached exactly when
   * `pre` does not raise, and the save is reached exactly when the wait succeeded.
   */
  lemma {:induction false} WaitReached(pre: seq<Step>, x: seq<Step>, tail: seq<Step>, fails: set<Step>)
    requires |tail| >= 2 && tail[0] == AwaitMarker && tail[1] == SaveSession
    requires AwaitMarker !in pre + x && SaveSession !in pre + x && !Halts(x, fails)
    ensures var trace := [StartDriver] + UpTo(pre + (x + tail), fails) + [StopDriver];
      && (AwaitMarker in trace <==> !Halts(pre, fails))
      && (SaveSession in trace ==> AwaitMarker in trace && AwaitMarker !in fails)
      && (AwaitMarker in trace && AwaitMarker !in fails ==> SaveSession in trace)
  {
    var t := UpTo(pre + (x + tail), fails);
    assert forall y :: y != StartDriver && y != StopDriver ==>
      (y in [StartDriver] + t + [StopDriver] <==> y in t);
    UpToAppend(pre, x + tail, fails);
    if Halts(pre, fails) {
      if AwaitMarker in t { UpToIn(pre, fails, AwaitMarker); }
      if SaveSession in t { UpToIn(pre, fails, SaveSession); }
    } else {
      UpToAppend(x, tail, fails);
      var u := UpTo(tail, fails);
      assert t == pre + (x + u);
      assert u[0] == AwaitMarker;
      if AwaitMarker in fails {
        assert u == [AwaitMarker];
        assert SaveSession !in t;
      } else {
        assert tail[1..][0] == SaveSession;
        assert u == [AwaitMarker] + UpTo(tail[1..], fails);
        assert u[1] == SaveSession;
        assert t[|pre| + |x| + 1] == SaveSession;
      }
    }
  }

  /**
   * The QR pairing wait happens exactly when the probe failed and everything
   * before it succeeded; the session is saved from it exactly when the search
   * box appeared.
   */
  lemma PairingAfterFailedProbe(plan: set<Step>, stored: bool, phone: string, message: string)
    requires StartDriver !in plan
    ensures var r := Reference(plan, stored, phone, message);
      && (AwaitMarker in r.trace
          <==> (ProbeMarker in plan || CloseProbePage in plan)
               && !Halts(ContextSteps(stored) + HomeSteps, Raising(plan)))
      && (SaveSession in r.trace ==> AwaitMarker in r.trace && AwaitMarker !in plan)
      && (AwaitMarker in r.trace && AwaitMarker !in plan ==> SaveSession in r.trace)
  {
    if ProbeMarker in plan || CloseProbePage in plan {
      FailedProbePath(plan, stored, phone, message);
      var pre, x := ContextSteps(stored) + HomeSteps, ProbeTried(plan);
      assert AwaitMarker !in pre + x && SaveSession !in pre + x;
      WaitReached(pre, x, PairingSteps + ChatSteps(phone, message), Raising(plan));
    } else {
      FastPathSkipsPairing(plan, stored, phone, message);
    }
  }

  /** One finished call: its arguments, the steps it performed and what it returned. */
  datatype Call = Call(phone: string, message: string, trace: seq<Step>, sent: bool)

  /**
   * The browser and the file system as `send_whatsapp_message` sees them:
   * `faults(k)` holds the steps that raise during the k-th call, and
   * `sessionStored` whether whatsapp_state.json exists.
   */
  class Messenger {
    const faults: nat -> set<Step>
    var sessionStored: bool
    var calls: seq<Call>
    var trace: seq<Step>  // the steps of the latest call

    constructor (faults: nat -> set<Step>, sessionStored: bool)
      ensures this.faults == faults && this.sessionStored == sessionStored
      ensures calls == [] && trace == []
    {
      this.faults := faults;
      this.sessionStored := sessionStored;
      calls := [];
      trace := [];
    }

    /** The steps that raise during the next call. */
    function Plan(): set<Step>
      reads this
    {
      faults(|calls|)
    }

    method Perform(s: Step) returns (ok: bool)
      modifies this`trace, this`sessionStored
      ensures ok <==> s !in Plan()
      ensures trace == old(trace) + [s]
      ensures sessionStored == (old(sessionStored) || (s.WritesSession() && ok))
    {
      ok := s !in faults(|calls|);
      trace := trace + [s];
      if s.WritesSession() && ok {
        sessionStored := true;
      }
    }

    /** The state of the call in progress, as a `Run`. */
    function Current(ok: bool): Run
      reads this
    {
      Run(trace, !ok)
    }

    /** whatsapp_state.json exists exactly when it did at the start of the call or a write of it succeeded. */
    ghost predicate Tracks(stored0: bool)
      reads this
    {
      sessionStored == StoredAfter(stored0, trace, Plan())
    }

    /** Performs `s` when nothing has raised yet. */
    method Next(ok: bool, s: Step, ghost stored0: bool) returns (ok': bool)
      requires Tracks(stored0)
      modifies this`trace, this`sessionStored
      ensures Current(ok') == Do(old(Current(ok)), s, Plan())
      ensures Tracks(stored0)
    {
      ok' := ok;
      if ok {
        ok' := Perform(s);
      }
    }

    /** `_ensure_logged_in`; `ok` is false when an exception leaves it. */
    method EnsureLoggedIn(ghost stored0: bool) returns (ok: bool)
      requires Tracks(stored0)
      modifies this`trace, this`sessionStored
      ensures Current(ok) == LoggedIn(old(Current(true)), Plan())
      ensures Tracks(stored0)
    {
      ghost var start := Current(true);
      ok := Next(true, OpenLoginPage, stored0);
      ok := Next(ok, LoadHome, stored0);
      DoAllTwo(start, OpenLoginPage, LoadHome, Plan());
      if !ok {
        return;
      }
      ghost var home := Current(ok);
      // try:
      var found := Next(true, ProbeMarker, stored0);
      found := Next(found, CloseProbePage, stored0);
      DoAllTwo(home, ProbeMarker, CloseProbePage, Plan());
      if found {
        return;
      }
      // except:
      ghost var resumed := Current(true);
      ok := Next(true, AwaitMarker, stored0);
      ok := Next(ok, SaveSession, stored0);
      ok := Next(ok, ClosePairingPage, stored0);
      DoAllThree(resumed, AwaitMarker, SaveSession, ClosePairingPage, Plan());
    }

    /** Lines 63-84 of `send_whatsapp_message`: open the chat, press Enter, save the session, close. */
    method SendInChat(ok: bool, phone: string, message: string, ghost stored0: bool) returns (ok': bool)
      requires Tracks(stored0)
      modifies this`trace, this`sessionStored
      ensures Current(ok') == DoAll(old(Current(ok)), ChatSteps(phone, message), Plan())
      ensures Tracks(stored0)
    {
      ghost var start := Current(ok);
      var url := Url.DeepLink(phone, message);
      ok' := Next(ok, OpenChatPage, stored0);
      ok' := Next(ok', LoadChat(url), stored0);
      ok' := Next(ok', AwaitPanel, stored0);
      ok' := Next(ok', PressEnter, stored0);
      ok' := Next(ok', Pause, stored0);
      ok' := Next(ok', RefreshSession, stored0);
      ok' := Next(ok', CloseBrowser, stored0);
      DoAllChat(start, phone, message, Plan());
    }

    /** `send_whatsapp_message(phone, message)`. */
    method SendWhatsAppMessage(phone: string, message: string) returns (sent: bool)
      modifies this
      ensures var r := SendRun(old(Plan()), old(sessionStored), phone, message);
        && sent == !r.raised
        && trace == r.trace
        && sessionStored == StoredAfter(old(sessionStored), r.trace, old(Plan()))
        && calls == old(calls) + [Call(phone, message, r.trace, sent)]
    {
      ghost var stored0 := sessionStored;
      trace := [];
      var ok := Next(true, StartDriver, stored0);
      if ok {
        ghost var entered := Current(ok);
        var reuse := sessionStored;  // Path(STORAGE_STATE).exists()
        ok := Next(ok, LaunchBrowser, stored0);
        ok := Next(ok, NewContext(reuse), stored0);
        DoAllTwo(entered, LaunchBrowser, NewContext(reuse), Plan());
        ghost var context := Current(ok);
        if ok {
          ok := EnsureLoggedIn(stored0);
        } else {
          DoAllUpTo(context, HomeSteps, Plan());
        }
        ok := SendInChat(ok, phone, message, stored0);
        var stopped := Next(true, StopDriver, stored0);
        ok := ok && stopped;
      }
      sent := ok;
      calls := calls + [Call(phone, message, trace, sent)];
    }
  }
}
