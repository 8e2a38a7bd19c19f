/** The resource lifecycle of the tray monitor, as values: what setup asks
    the operating system for and keeps, what terminate gives back, and the
    accounting that shows nothing is leaked whichever step of setup fails. */
module Lifecycle {
  import opened Win32

  /** The power settings setup subscribes to, in order. */
  const WatchedSettings: seq<Guid> := [BatteryPercentageRemaining, AcdcPowerSource]

  /** The handles a Tasktray holds: hwnd_, hpns_ and wndAtom_. */
  datatype Resources = Resources(hwnd: Handle, hpns: seq<Handle>, wndAtom: Option<Handle>)

  /** What the constructor starts from and what terminate leaves behind. */
  const Empty := Resources(0, [], None)

  /** What the operating system answers to setup's requests: the ATOM from
      RegisterClassExW, the HWND from CreateWindowExW, whether NIM_ADD
      succeeded, and the HPOWERNOTIFY for each watched setting in turn (an
      absent entry means that registration failed). */
  datatype SetupOutcome = SetupOutcome(atom: Handle, hwnd: Handle, iconAdded: bool, hpns: seq<Handle>)

  datatype SetupResult = SetupResult(ok: bool, res: Resources, log: seq<Request>)

  /** The handle RegisterPowerSettingNotification returns for the i-th watched setting. */
  function SubscriptionHandle(o: SetupOutcome, i: nat): Handle {
    if i < |o.hpns| then o.hpns[i] else 0
  }

  /** Every step of setup succeeds. */
  predicate SetupSucceeds(o: SetupOutcome) {
    o.atom != 0 && o.hwnd != 0 && o.iconAdded &&
    forall i :: 0 <= i < |WatchedSettings| ==> SubscriptionHandle(o, i) != 0
  }

  /** The index of the first watched setting whose registration fails, from
      index i on, or the number of watched settings when none fails. */
  function FirstFailure(o: SetupOutcome, i: nat): (k: nat)
    requires i <= |WatchedSettings|
    ensures i <= k <= |WatchedSettings|
    ensures forall j :: i <= j < k ==> SubscriptionHandle(o, j) != 0
    ensures k < |WatchedSettings| ==> SubscriptionHandle(o, k) == 0
    decreases |WatchedSettings| - i
  {
    if i == |WatchedSettings| || SubscriptionHandle(o, i) == 0 then i
    else FirstFailure(o, i + 1)
  }

  /** The first n RegisterPowerSettingNotification requests. */
  function SubscriptionLog(hwnd: Handle, o: SetupOutcome, n: nat): seq<Request>
    requires n <= |WatchedSettings|
  {
    if n == 0 then [] else
      SubscriptionLog(hwnd, o, n - 1) +
      [RegisterPowerSetting(hwnd, WatchedSettings[n - 1], SubscriptionHandle(o, n - 1))]
  }

  /** Tasktray::setup run on a freshly initialised object: class, window, tray
      icon, then one subscription per watched setting, stopping at the first
      failure. */
  function SetupRun(o: SetupOutcome): (r: SetupResult)
    ensures r.ok <==> SetupSucceeds(o)
    ensures r.res.wndAtom == Some(o.atom)
    ensures r.res.hwnd == if o.atom == 0 then 0 else o.hwnd
    ensures |r.res.hpns| <= |WatchedSettings|
    ensures forall i :: 0 <= i < |r.res.hpns| ==> r.res.hpns[i] == SubscriptionHandle(o, i) != 0
    ensures r.res.hpns != [] ==> o.atom != 0 && o.hwnd != 0 && o.iconAdded
    ensures r.ok ==> |r.res.hpns| == |WatchedSettings|
    ensures !r.ok && o.atom != 0 && o.hwnd != 0 && o.iconAdded ==>
      SubscriptionHandle(o, |r.res.hpns|) == 0
  {
    var classLog := [RegisterClass(o.atom)];
    if o.atom == 0 then
      SetupResult(false, Resources(0, [], Some(o.atom)), classLog)
    else
      var windowLog := classLog + [CreateWindow(o.hwnd)];
      if o.hwnd == 0 then
        SetupResult(false, Resources(0, [], Some(o.atom)), windowLog)
      else
        var iconLog := windowLog + [AddIcon(o.hwnd, o.iconAdded)];
        if !o.iconAdded then
          SetupResult(false, Resources(o.hwnd, [], Some(o.atom)), iconLog)
        else
          var k := FirstFailure(o, 0);
          assert k > 0 ==> SubscriptionHandle(o, k - 1) != 0;
          SetupResult(k == |WatchedSettings|, Resources(o.hwnd, o.hpns[..k], Some(o.atom)),
                      iconLog + SubscriptionLog(o.hwnd, o, Attempts(o)))
  }

  /** The step of setup a request belongs to: class, window, tray icon, then
      the power-setting subscriptions. */
  function SetupPhase(r: Request): nat {
    match r
    case RegisterClass(_) => 0
    case CreateWindow(_) => 1
    case AddIcon(_, _) => 2
    case RegisterPowerSetting(_, _, _) => 3
    case _ => 4
  }

  /** The subscription requests of the first n rounds, one per watched
      setting, in order. */
  lemma {:induction false} SubscriptionLogShape(hwnd: Handle, o: SetupOutcome, n: nat)
    requires n <= |WatchedSettings|
    ensures |SubscriptionLog(hwnd, o, n)| == n
    ensures forall i :: 0 <= i < n ==>
      SubscriptionLog(hwnd, o, n)[i] == RegisterPowerSetting(hwnd, WatchedSettings[i], SubscriptionHandle(o, i))
  {
    if n > 0 {
      SubscriptionLogShape(hwnd, o, n - 1);
    }
  }

  /** Once class, window and icon are in place, setup's log is those three
      requests followed by one registration per attempted setting. */
  lemma SubscribingLog(o: SetupOutcome)
    requires o.atom != 0 && o.hwnd != 0 && o.iconAdded
    ensures var l := SetupRun(o).log;
      && |l| == 3 + Attempts(o)
      && l[..3] == [RegisterClass(o.atom), CreateWindow(o.hwnd), AddIcon(o.hwnd, true)]
      && forall i :: 3 <= i < |l| ==>
           l[i] == RegisterPowerSetting(o.hwnd, WatchedSettings[i - 3], SubscriptionHandle(o, i - 3))
  {
    var l := SetupRun(o).log;
    var iconLog := [RegisterClass(o.atom), CreateWindow(o.hwnd), AddIcon(o.hwnd, true)];
    SubscriptionLogShape(o.hwnd, o, Attempts(o));
    assert l == iconLog + SubscriptionLog(o.hwnd, o, Attempts(o));
    forall i | 3 <= i < |l|
      ensures l[i] == RegisterPowerSetting(o.hwnd, WatchedSettings[i - 3], SubscriptionHandle(o, i - 3))
    {
      assert l[i] == SubscriptionLog(o.hwnd, o, Attempts(o))[i - 3];
    }
  }

  /** Setup asks for the class, then the window, then the tray icon, then one
      subscription per attempted setting, in that order and nothing else. */
  lemma SetupShape(o: SetupOutcome)
    ensures var l := SetupRun(o).log;
      && |l| == (if o.atom == 0 then 1 else if o.hwnd == 0 then 2 else if !o.iconAdded then 3 else 3 + Attempts(o))
      && l[0] == RegisterClass(o.atom)
      && (|l| > 1 ==> l[1] == CreateWindow(o.hwnd))
      && (|l| > 2 ==> l[2] == AddIcon(o.hwnd, o.iconAdded))
      && (forall i :: 3 <= i < |l| ==>
            l[i] == RegisterPowerSetting(o.hwnd, WatchedSettings[i - 3], SubscriptionHandle(o, i - 3)))
      && (forall i, j :: 0 <= i < j < |l| ==> SetupPhase(l[i]) <= SetupPhase(l[j]))
  {
    var l := SetupRun(o).log;
    if o.atom != 0 && o.hwnd != 0 && o.iconAdded {
      SubscribingLog(o);
      assert l[0] == l[..3][0] && l[1] == l[..3][1] && l[2] == l[..3][2];
      assert forall i :: 0 <= i < |l| ==> SetupPhase(l[i]) == if i < 3 then i else 3;
    }
  }

  /** Every request of setup but the last obtained something, and the last
      one failed exactly when setup did: nothing is asked for after the
      first failure, and a successful setup made every attempt. */
  lemma SetupStopsAtFirstFailure(o: SetupOutcome)
    ensures var l := SetupRun(o).log;
      && |l| > 0
      && (forall i :: 0 <= i < |l| - 1 ==> AcquiredBy(l[i]) != multiset{})
      && (AcquiredBy(l[|l| - 1]) == multiset{} <==> !SetupRun(o).ok)
      && (SetupRun(o).ok ==> |l| == 3 + |WatchedSettings|)
  {
    var l := SetupRun(o).log;
    if o.atom != 0 && o.hwnd != 0 && o.iconAdded {
      SubscribingLog(o);
      var k := FirstFailure(o, 0);
      assert l[0] == l[..3][0] && l[1] == l[..3][1] && l[2] == l[..3][2];
      forall i | 3 <= i < |l| - 1
        ensures AcquiredBy(l[i]) != multiset{}
      {
        assert i - 3 < k;
      }
      if k < |WatchedSettings| {
        assert l[|l| - 1] == RegisterPowerSetting(o.hwnd, WatchedSettings[k], SubscriptionHandle(o, k));
      }
    }
  }

  /** Setup's requests, issued one at a time, make up its log on each path. */
  lemma SetupPieces(log: seq<Request>, o: SetupOutcome)
    ensures o.atom == 0 ==> log + [RegisterClass(o.atom)] == log + SetupRun(o).log
    ensures o.atom != 0 && o.hwnd == 0 ==>
      log + [RegisterClass(o.atom)] + [CreateWindow(o.hwnd)] == log + SetupRun(o).log
    ensures o.atom != 0 && o.hwnd != 0 && !o.iconAdded ==>
      log + [RegisterClass(o.atom)] + [CreateWindow(o.hwnd)] + [AddIcon(o.hwnd, o.iconAdded)] ==
      log + SetupRun(o).log
    ensures log + [RegisterClass(o.atom)] + [CreateWindow(o.hwnd)] + [AddIcon(o.hwnd, true)] ==
      log + [RegisterClass(o.atom), CreateWindow(o.hwnd), AddIcon(o.hwnd, true)] + SubscriptionLog(o.hwnd, o, 0)
    ensures o.atom != 0 && o.hwnd != 0 && o.iconAdded ==>
      log + [RegisterClass(o.atom), CreateWindow(o.hwnd), AddIcon(o.hwnd, true)] +
        SubscriptionLog(o.hwnd, o, Attempts(o)) == log + SetupRun(o).log
  {
  }

  /** Appending the next registration request extends the subscription log. */
  lemma SubscribeStep(log: seq<Request>, hwnd: Handle, o: SetupOutcome, i: nat)
    requires i < |WatchedSettings|
    ensures log + SubscriptionLog(hwnd, o, i) + [RegisterPowerSetting(hwnd, WatchedSettings[i], SubscriptionHandle(o, i))] ==
      log + SubscriptionLog(hwnd, o, i + 1)
  {
  }

  /** One UnregisterPowerSettingNotification per handle, in order. */
  function UnregisterAll(hs: seq<Handle>): seq<Request> {
    if hs == [] then [] else UnregisterAll(hs[..|hs| - 1]) + [UnregisterPowerSetting(hs[|hs| - 1])]
  }

  /** The unregistering loop issues exactly one request per held handle, in order. */
  lemma {:induction false} UnregisterAllShape(hs: seq<Handle>)
    ensures |UnregisterAll(hs)| == |hs|
    ensures forall i :: 0 <= i < |hs| ==> UnregisterAll(hs)[i] == UnregisterPowerSetting(hs[i])
    decreases |hs|
  {
    if hs != [] {
      var init := hs[..|hs| - 1];
      UnregisterAllShape(init);
      forall i | 0 <= i < |hs| - 1
        ensures UnregisterAll(hs)[i] == UnregisterPowerSetting(hs[i])
      {
        assert init[i] == hs[i];
      }
    }
  }

  /** The order terminate releases in: subscriptions, icon, window, class. */
  function Phase(r: Request): nat {
    match r
    case UnregisterPowerSetting(_) => 0
    case DeleteIcon(_) => 1
    case DestroyWindow(_) => 2
    case UnregisterClass(_) => 3
    case _ => 4
  }

  /** The requests Tasktray::terminate issues for the handles it holds. */
  function TeardownLog(res: Resources): (r: seq<Request>)
    ensures r == [] <==> res == Empty
  {
    UnregisterAll(res.hpns) + WindowTeardown(res.hwnd) + ClassTeardown(res.wndAtom)
  }

  /** Terminate unregisters every subscription in order, then, when hwnd_ is
      set, deletes the icon and destroys the window, then, when wndAtom_ holds
      a value, unregisters the class; nothing else, and in that order. */
  lemma TeardownShape(res: Resources)
    ensures var r := TeardownLog(res);
      && |r| == |res.hpns| + (if res.hwnd != 0 then 2 else 0) + (if res.wndAtom.Some? then 1 else 0)
      && (forall i :: 0 <= i < |res.hpns| ==> r[i] == UnregisterPowerSetting(res.hpns[i]))
      && (res.hwnd != 0 ==> r[|res.hpns|] == DeleteIcon(res.hwnd) && r[|res.hpns| + 1] == DestroyWindow(res.hwnd))
      && (res.wndAtom.Some? ==> r[|r| - 1] == UnregisterClass(res.wndAtom.value))
      && (forall i, j :: 0 <= i < j < |r| ==> Phase(r[i]) <= Phase(r[j]))
  {
    UnregisterAllShape(res.hpns);
  }

  /** Appending the unregistering request of the next handle extends the loop's log. */
  lemma UnregisterStep(log: seq<Request>, hs: seq<Handle>, i: nat)
    requires i < |hs|
    ensures log + UnregisterAll(hs[..i]) + [UnregisterPowerSetting(hs[i])] == log + UnregisterAll(hs[..i + 1])
  {
    assert hs[..i + 1][..i] == hs[..i];
  }

  /** Terminate's requests, issued one at a time or skipped, make up its log. */
  lemma TeardownPieces(log: seq<Request>, res: Resources)
    ensures res.hpns == [] ==> log + UnregisterAll(res.hpns) == log
    ensures res.hwnd != 0 ==>
      log + [DeleteIcon(res.hwnd)] + [DestroyWindow(res.hwnd)] == log + WindowTeardown(res.hwnd)
    ensures res.hwnd == 0 ==> log + WindowTeardown(res.hwnd) == log
    ensures res.wndAtom.Some? ==> log + [UnregisterClass(res.wndAtom.value)] == log + ClassTeardown(res.wndAtom)
    ensures res.wndAtom.None? ==> log + ClassTeardown(res.wndAtom) == log
  {
  }

  lemma TeardownJoin(log: seq<Request>, res: Resources)
    ensures log + UnregisterAll(res.hpns) + WindowTeardown(res.hwnd) + ClassTeardown(res.wndAtom) ==
      log + TeardownLog(res)
  {
  }

  /** One PowerSubscription per handle. */
  function Subscriptions(hs: seq<Handle>): multiset<Resource> {
    if hs == [] then multiset{} else Subscriptions(hs[..|hs| - 1]) + multiset{PowerSubscription(hs[|hs| - 1])}
  }

  lemma SubscriptionsSnoc(hs: seq<Handle>, h: Handle)
    ensures Subscriptions(hs + [h]) == Subscriptions(hs) + multiset{PowerSubscription(h)}
  {
    assert (hs + [h])[..|hs|] == hs;
  }

  /** The resources terminate will try to give back for the handles held. */
  function Owned(res: Resources): multiset<Resource> {
    Subscriptions(res.hpns) +
    (if res.hwnd != 0 then multiset{TrayIcon(res.hwnd), Window(res.hwnd)} else multiset{}) +
    (if res.wndAtom.Some? then multiset{WindowClass(res.wndAtom.value)} else multiset{})
  }

  lemma OwnedEmpty()
    ensures Owned(Empty) == multiset{}
  {
    assert Subscriptions([]) == multiset{};
  }

  /** The releases terminate asks for although setup never obtained the
      resource: UnregisterClassW(0) after RegisterClassExW failed (wndAtom_
      keeps the 0 it returned), and NIM_DELETE after NIM_ADD failed. */
  function SetupQuirks(o: SetupOutcome): multiset<Resource> {
    if o.atom == 0 then multiset{WindowClass(0)}
    else if o.hwnd != 0 && !o.iconAdded then multiset{TrayIcon(o.hwnd)}
    else multiset{}
  }

  lemma {:induction false} UnregisterAllReleases(hs: seq<Handle>)
    ensures Acquired(UnregisterAll(hs)) == multiset{}
    ensures Released(UnregisterAll(hs)) == Subscriptions(hs)
    decreases |hs|
  {
    if hs != [] {
      var init := hs[..|hs| - 1];
      UnregisterAllReleases(init);
      TallyAppend(UnregisterAll(init), [UnregisterPowerSetting(hs[|hs| - 1])]);
    }
  }

  /** The window part of terminate: NIM_DELETE, then DestroyWindow. */
  function WindowTeardown(hwnd: Handle): seq<Request> {
    if hwnd != 0 then [DeleteIcon(hwnd), DestroyWindow(hwnd)] else []
  }

  /** The class part of terminate: UnregisterClassW. */
  function ClassTeardown(wndAtom: Option<Handle>): seq<Request> {
    if wndAtom.Some? then [UnregisterClass(wndAtom.value)] else []
  }

  lemma WindowTeardownReleases(hwnd: Handle)
    ensures Acquired(WindowTeardown(hwnd)) == multiset{}
    ensures Released(WindowTeardown(hwnd)) ==
      if hwnd != 0 then multiset{TrayIcon(hwnd), Window(hwnd)} else multiset{}
  {
    if hwnd != 0 {
      TallyOne(DeleteIcon(hwnd));
      TallyOne(DestroyWindow(hwnd));
      TallyAppend([DeleteIcon(hwnd)], [DestroyWindow(hwnd)]);
    }
  }

  lemma ClassTeardownReleases(wndAtom: Option<Handle>)
    ensures Acquired(ClassTeardown(wndAtom)) == multiset{}
    ensures Released(ClassTeardown(wndAtom)) ==
      if wndAtom.Some? then multiset{WindowClass(wndAtom.value)} else multiset{}
  {
    if wndAtom.Some? {
      TallyOne(UnregisterClass(wndAtom.value));
    }
  }

  /** Terminate asks for every held resource back, exactly once, and obtains nothing. */
  lemma TeardownReleasesOwned(res: Resources)
    ensures Acquired(TeardownLog(res)) == multiset{}
    ensures Released(TeardownLog(res)) == Owned(res)
  {
    var unreg := UnregisterAll(res.hpns);
    var window := WindowTeardown(res.hwnd);
    var unclass := ClassTeardown(res.wndAtom);
    assert TeardownLog(res) == unreg + window + unclass;
    UnregisterAllReleases(res.hpns);
    WindowTeardownReleases(res.hwnd);
    ClassTeardownReleases(res.wndAtom);
    TallyAppend(unreg, window);
    TallyAppend(unreg + window, unclass);
  }

  /** One more registration adds what that registration obtains. */
  lemma SubscriptionStep(hwnd: Handle, o: SetupOutcome, n: nat)
    requires 0 < n <= |WatchedSettings|
    ensures Acquired(SubscriptionLog(hwnd, o, n)) ==
      Acquired(SubscriptionLog(hwnd, o, n - 1)) +
      AcquiredBy(RegisterPowerSetting(hwnd, WatchedSettings[n - 1], SubscriptionHandle(o, n - 1)))
    ensures Released(SubscriptionLog(hwnd, o, n)) == Released(SubscriptionLog(hwnd, o, n - 1))
  {
    var init := SubscriptionLog(hwnd, o, n - 1);
    var last := RegisterPowerSetting(hwnd, WatchedSettings[n - 1], SubscriptionHandle(o, n - 1));
    assert SubscriptionLog(hwnd, o, n) == init + [last];
    TallyOne(last);
    TallyAppend(init, [last]);
  }

  lemma SubscriptionsPrefix(hs: seq<Handle>, n: nat)
    requires 0 < n <= |hs|
    ensures Subscriptions(hs[..n]) == Subscriptions(hs[..n - 1]) + multiset{PowerSubscription(hs[n - 1])}
  {
    assert hs[..n] == hs[..n - 1] + [hs[n - 1]];
    SubscriptionsSnoc(hs[..n - 1], hs[n - 1]);
  }

  lemma {:induction false} SubscriptionLogAcquires(hwnd: Handle, o: SetupOutcome, n: nat)
    requires n <= |WatchedSettings|
    requires forall j :: 0 <= j < n ==> SubscriptionHandle(o, j) != 0
    ensures n <= |o.hpns|
    ensures Acquired(SubscriptionLog(hwnd, o, n)) == Subscriptions(o.hpns[..n])
    ensures Released(SubscriptionLog(hwnd, o, n)) == multiset{}
  {
    if n > 0 {
      assert SubscriptionHandle(o, n - 1) != 0;
      SubscriptionLogAcquires(hwnd, o, n - 1);
      SubscriptionStep(hwnd, o, n);
      SubscriptionsPrefix(o.hpns, n);
    } else {
      assert o.hpns[..0] == [];
    }
  }

  /** The requests of setup up to and including NIM_ADD, when class and window succeed. */
  lemma IconLogTally(atom: Handle, hwnd: Handle, added: bool)
    requires atom != 0 && hwnd != 0
    ensures Released([RegisterClass(atom), CreateWindow(hwnd), AddIcon(hwnd, added)]) == multiset{}
    ensures Acquired([RegisterClass(atom), CreateWindow(hwnd), AddIcon(hwnd, added)]) ==
      multiset{WindowClass(atom), Window(hwnd)} + (if added then multiset{TrayIcon(hwnd)} else multiset{})
  {
    TallyOne(RegisterClass(atom));
    TallyOne(CreateWindow(hwnd));
    TallyOne(AddIcon(hwnd, added));
    assert [RegisterClass(atom), CreateWindow(hwnd)] == [RegisterClass(atom)] + [CreateWindow(hwnd)];
    TallyAppend([RegisterClass(atom)], [CreateWindow(hwnd)]);
    assert [RegisterClass(atom), CreateWindow(hwnd), AddIcon(hwnd, added)] ==
      [RegisterClass(atom), CreateWindow(hwnd)] + [AddIcon(hwnd, added)];
    TallyAppend([RegisterClass(atom), CreateWindow(hwnd)], [AddIcon(hwnd, added)]);
  }

  /** The registrations setup attempts: up to and including the first that fails. */
  function Attempts(o: SetupOutcome): (n: nat)
    ensures n <= |WatchedSettings|
  {
    var k := FirstFailure(o, 0);
    if k < |WatchedSettings| then k + 1 else k
  }

  /** The registrations setup attempts obtain exactly the subscriptions it keeps. */
  lemma AttemptsAcquire(hwnd: Handle, o: SetupOutcome)
    ensures FirstFailure(o, 0) <= |o.hpns|
    ensures Acquired(SubscriptionLog(hwnd, o, Attempts(o))) == Subscriptions(o.hpns[..FirstFailure(o, 0)])
    ensures Released(SubscriptionLog(hwnd, o, Attempts(o))) == multiset{}
  {
    var k := FirstFailure(o, 0);
    SubscriptionLogAcquires(hwnd, o, k);
    if k < |WatchedSettings| {
      var last := RegisterPowerSetting(hwnd, WatchedSettings[k], SubscriptionHandle(o, k));
      TallyOne(last);
      assert SubscriptionLog(hwnd, o, k + 1) == SubscriptionLog(hwnd, o, k) + [last];
      TallyAppend(SubscriptionLog(hwnd, o, k), [last]);
    }
  }

  /** The subscription phase of setup, once class, window and icon are in place. */
  lemma SubscribingAccounts(o: SetupOutcome)
    requires o.atom != 0 && o.hwnd != 0 && o.iconAdded
    ensures FirstFailure(o, 0) <= |o.hpns|
    ensures var log := [RegisterClass(o.atom), CreateWindow(o.hwnd), AddIcon(o.hwnd, true)] +
                       SubscriptionLog(o.hwnd, o, Attempts(o));
      && Released(log) == multiset{}
      && Acquired(log) == Owned(Resources(o.hwnd, o.hpns[..FirstFailure(o, 0)], Some(o.atom)))
  {
    var iconLog := [RegisterClass(o.atom), CreateWindow(o.hwnd), AddIcon(o.hwnd, true)];
    IconLogTally(o.atom, o.hwnd, true);
    AttemptsAcquire(o.hwnd, o);
    TallyAppend(iconLog, SubscriptionLog(o.hwnd, o, Attempts(o)));
  }

  /** What setup obtained, with the quirky releases still to come, is what terminate will give back. */
  predicate Accounted(o: SetupOutcome) {
    Acquired(SetupRun(o).log) + SetupQuirks(o) == Owned(SetupRun(o).res) &&
    Released(SetupRun(o).log) == multiset{}
  }

  lemma ClassFailureAccounts(o: SetupOutcome)
    requires o.atom == 0
    ensures Accounted(o)
  {
    TallyOne(RegisterClass(o.atom));
    assert Subscriptions([]) == multiset{};
  }

  lemma WindowFailureAccounts(o: SetupOutcome)
    requires o.atom != 0 && o.hwnd == 0
    ensures Accounted(o)
  {
    TallyOne(RegisterClass(o.atom));
    TallyOne(CreateWindow(o.hwnd));
    TallyAppend([RegisterClass(o.atom)], [CreateWindow(o.hwnd)]);
    assert Subscriptions([]) == multiset{};
  }

  lemma IconFailureAccounts(o: SetupOutcome)
    requires o.atom != 0 && o.hwnd != 0 && !o.iconAdded
    ensures Accounted(o)
  {
    var held := Resources(o.hwnd, [], Some(o.atom));
    assert SetupRun(o).log == [RegisterClass(o.atom), CreateWindow(o.hwnd), AddIcon(o.hwnd, false)];
    assert SetupRun(o).res == held;
    assert Subscriptions([]) == multiset{};
    assert Owned(held) == multiset{TrayIcon(o.hwnd), Window(o.hwnd)} + multiset{WindowClass(o.atom)};
    assert SetupQuirks(o) == multiset{TrayIcon(o.hwnd)};
    IconLogTally(o.atom, o.hwnd, false);
  }

  /** Right after setup, what it obtained, together with the quirky releases
      still to come, is exactly what terminate will give back; setup itself
      releases nothing. */
  lemma SetupAccounts(o: SetupOutcome)
    ensures Acquired(SetupRun(o).log) + SetupQuirks(o) == Owned(SetupRun(o).res)
    ensures Released(SetupRun(o).log) == multiset{}
  {
    if o.atom == 0 {
      ClassFailureAccounts(o);
    } else if o.hwnd == 0 {
      WindowFailureAccounts(o);
    } else if !o.iconAdded {
      IconFailureAccounts(o);
    } else {
      assert SetupRun(o).log == [RegisterClass(o.atom), CreateWindow(o.hwnd), AddIcon(o.hwnd, true)] +
                                SubscriptionLog(o.hwnd, o, Attempts(o));
      SubscribingAccounts(o);
    }
  }

  /** The quirky releases name resources setup never obtained. */
  lemma QuirksNeverAcquired(o: SetupOutcome)
    ensures forall q :: q in SetupQuirks(o) ==> q !in Acquired(SetupRun(o).log)
  {
    if o.atom == 0 {
      TallyOne(RegisterClass(0));
    } else if o.hwnd != 0 && !o.iconAdded {
      assert SetupRun(o).log == [RegisterClass(o.atom), CreateWindow(o.hwnd), AddIcon(o.hwnd, false)];
      IconLogTally(o.atom, o.hwnd, false);
    }
  }

  /** Setup followed by terminate, whichever step of setup failed (the
      constructor's own terminate, or the one run later by WM_CLOSE, the
      Quit menu entry or the destructor): every resource obtained is given
      back exactly once, and the only other releases are the two quirks,
      which concern resources that were never obtained. */
  lemma NoLeak(o: SetupOutcome)
    ensures var log := SetupRun(o).log + TeardownLog(SetupRun(o).res);
      && Released(log) == Acquired(log) + SetupQuirks(o)
      && Acquired(log) <= Released(log)
      && forall q :: q in SetupQuirks(o) ==> q !in Acquired(log)
  {
    var r := SetupRun(o);
    SetupAccounts(o);
    TeardownReleasesOwned(r.res);
    TallyAppend(r.log, TeardownLog(r.res));
    assert Acquired(r.log + TeardownLog(r.res)) == Acquired(r.log);
    QuirksNeverAcquired(o);
  }

  /** Only DestroyWindow leads to WM_DESTROY, the one message whose handler
      posts WM_QUIT. When RegisterClassExW or CreateWindowExW fails, hwnd_ stays
      null, so the failed constructor, setup followed by terminate, neither
      destroys a window nor posts a quit; once the window exists, terminate
      does destroy it. */
  lemma EarlyFailureNeverQuits(o: SetupOutcome)
    ensures var log := SetupRun(o).log + TeardownLog(SetupRun(o).res);
      (o.atom == 0 || o.hwnd == 0) <==>
        forall i :: 0 <= i < |log| ==> !log[i].DestroyWindow? && !log[i].PostQuit?
  {
    var r := SetupRun(o);
    if o.atom == 0 || o.hwnd == 0 {
      assert r.log + TeardownLog(r.res) ==
        (if o.atom == 0 then [RegisterClass(o.atom)] else [RegisterClass(o.atom), CreateWindow(o.hwnd)]) +
        [UnregisterClass(o.atom)];
    } else {
      UnregisterAllShape(r.res.hpns);
      var k := |r.log| + |r.res.hpns| + 1;
      assert (r.log + TeardownLog(r.res))[k] == DestroyWindow(o.hwnd);
    }
  }
}
