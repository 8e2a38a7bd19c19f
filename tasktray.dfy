/** The tray monitor itself: the Tasktray object, whose handles and
    remembered battery status its methods update in place, and the program's
    entry point. Calls into the operating system are appended to `requests`;
    what the operating system answers comes in through the methods'
    parameters. */
module Tray {
  import opened Win32
  import opened Battery
  import opened Lifecycle
  import opened Monitor

  class Tasktray {
    var hwnd: Handle                 // hwnd_
    var hpns: seq<Handle>            // hpns_
    var wndAtom: Option<Handle>      // wndAtom_
    var prevBtStatus: BatteryStatus  // prevBtStatus_
    /** The calls made into the operating system so far, in order. */
    var requests: seq<Request>
    /** The releases terminate asks for of resources setup never obtained. */
    ghost var quirks: multiset<Resource>

    function Held(): Resources
      reads this
    {
      Resources(hwnd, hpns, wndAtom)
    }

    function State(): TrayState
      reads this
    {
      TrayState(Held(), prevBtStatus)
    }

    /** Everything ever obtained, plus the quirky releases, is either given
        back already or still held, and so will be given back by terminate. */
    ghost predicate Valid()
      reads this
    {
      Account(requests, quirks, Held())
    }

    /** Tasktray::Tasktray: value-initialise, run setup, and terminate at once
        if setup failed. */
    constructor (o: SetupOutcome)
      ensures Valid() && quirks == SetupQuirks(o)
      ensures Held() == if SetupRun(o).ok then SetupRun(o).res else Empty
      ensures requests == SetupRun(o).log + if SetupRun(o).ok then [] else TeardownLog(SetupRun(o).res)
      ensures prevBtStatus == InitialStatus
    {
      hwnd, hpns, wndAtom, prevBtStatus := 0, [], None, InitialStatus;
      requests, quirks := [], SetupQuirks(o);
      new;
      var ok := Setup(o);
      assert requests == SetupRun(o).log;
      assert Valid() by {
        SetupAccounts(o);
      }
      if !ok {
        ghost var setupLog := requests;
        Terminate();
        TeardownExtends(setupLog, SetupRun(o).res, quirks);
      }
    }

    /** Tasktray::setup: register the class, create the window, add the tray
        icon, then subscribe to each watched power setting, giving up at the
        first failure. */
    method Setup(o: SetupOutcome) returns (ok: bool)
      requires Held() == Empty
      modifies this
      ensures ok == SetupRun(o).ok
      ensures Held() == SetupRun(o).res
      ensures requests == old(requests) + SetupRun(o).log
      ensures prevBtStatus == old(prevBtStatus) && quirks == old(quirks)
    {
      var atom := o.atom;
      requests := requests + [RegisterClass(atom)];
      wndAtom := Some(atom);
      if atom == 0 {
        assert requests == old(requests) + SetupRun(o).log by { SetupPieces(old(requests), o); }
        return false;
      }
      hwnd := o.hwnd;
      requests := requests + [CreateWindow(hwnd)];
      if hwnd == 0 {
        assert requests == old(requests) + SetupRun(o).log by { SetupPieces(old(requests), o); }
        return false;
      }
      requests := requests + [AddIcon(hwnd, o.iconAdded)];
      if !o.iconAdded {
        assert requests == old(requests) + SetupRun(o).log by { SetupPieces(old(requests), o); }
        return false;
      }
      ghost var iconLog := [RegisterClass(atom), CreateWindow(hwnd), AddIcon(hwnd, true)];
      assert requests == old(requests) + iconLog + SubscriptionLog(hwnd, o, 0) by { SetupPieces(old(requests), o); }
      var i := 0;
      while i < |WatchedSettings|
        invariant 0 <= i <= |WatchedSettings|
        invariant forall j :: 0 <= j < i ==> SubscriptionHandle(o, j) != 0
        invariant i <= |o.hpns| && hpns == o.hpns[..i]
        invariant hwnd == o.hwnd && wndAtom == Some(atom)
        invariant prevBtStatus == old(prevBtStatus) && quirks == old(quirks)
        invariant requests == old(requests) + iconLog + SubscriptionLog(hwnd, o, i)
      {
        var hpn := SubscriptionHandle(o, i);
        requests := requests + [RegisterPowerSetting(hwnd, WatchedSettings[i], hpn)];
        SubscribeStep(old(requests) + iconLog, hwnd, o, i);
        if hpn == 0 {
          assert FirstFailure(o, 0) == i;
          assert requests == old(requests) + SetupRun(o).log by { SetupPieces(old(requests), o); }
          return false;
        }
        hpns := hpns + [hpn];
        assert o.hpns[..i + 1] == o.hpns[..i] + [hpn];
        i := i + 1;
      }
      assert FirstFailure(o, 0) == i;
      assert requests == old(requests) + SetupRun(o).log by { SetupPieces(old(requests), o); }
      return true;
    }

    /** Tasktray::terminate: unregister every subscription whatever the
        outcome of the others, then delete the icon and destroy the window
        when hwnd_ is set, then unregister the class when wndAtom_ holds a
        value; clearing each handle makes a second call do nothing. */
    method Terminate()
      modifies this
      ensures requests == old(requests) + TeardownLog(old(Held()))
      ensures Held() == Empty
      ensures prevBtStatus == old(prevBtStatus) && quirks == old(quirks)
    {
      ghost var before := Held();
      if hpns != [] {
        var hs := hpns;
        for i := 0 to |hs|
          invariant requests == old(requests) + UnregisterAll(hs[..i])
          invariant hwnd == before.hwnd && wndAtom == before.wndAtom
          invariant prevBtStatus == old(prevBtStatus) && quirks == old(quirks)
        {
          requests := requests + [UnregisterPowerSetting(hs[i])];
          UnregisterStep(old(requests), hs, i);
        }
        assert hs[..|hs|] == hs;
        hpns := [];
      }
      ghost var unreg := requests;
      assert unreg == old(requests) + UnregisterAll(before.hpns) by {
        TeardownPieces(old(requests), before);
      }
      if hwnd != 0 {
        requests := requests + [DeleteIcon(hwnd)];
      }
      if hwnd != 0 {
        requests := requests + [DestroyWindow(hwnd)];
        hwnd := 0;
      }
      assert requests == unreg + WindowTeardown(before.hwnd) by {
        TeardownPieces(unreg, before);
      }
      ghost var window := requests;
      if wndAtom.Some? {
        requests := requests + [UnregisterClass(wndAtom.value)];
        wndAtom := None;
      }
      assert requests == window + ClassTeardown(before.wndAtom) by {
        TeardownPieces(window, before);
      }
      assert requests == old(requests) + TeardownLog(before) by {
        TeardownJoin(old(requests), before);
      }
    }

    /** Tasktray::~Tasktray. */
    method Destroy()
      modifies this
      ensures requests == old(requests) + TeardownLog(old(Held()))
      ensures Held() == Empty && prevBtStatus == old(prevBtStatus) && quirks == old(quirks)
      ensures old(Valid()) ==> Valid()
    {
      Terminate();
      if old(Valid()) {
        TeardownExtends(old(requests), old(Held()), quirks);
      }
    }

    /** Tasktray::checkBatteryStatus with the reading GetSystemPowerStatus gave. */
    method CheckBatteryStatus(p: PowerStatus)
      modifies this
      ensures prevBtStatus == Evaluate(old(prevBtStatus), p).next
      ensures requests == old(requests) + BalloonLog(hwnd, Evaluate(old(prevBtStatus), p).notify)
      ensures Held() == old(Held()) && quirks == old(quirks)
    {
      if p.batteryLifePercent == BatteryLifePercentUnknown {
        return;
      }
      var isCharging := IsCharging(p.batteryFlag);
      if p.batteryLifePercent >= NotifyPercent && isCharging &&
         (!prevBtStatus.isCharging || prevBtStatus.percent < NotifyPercent) {
        requests := requests + [ShowBalloon(hwnd)];
      }
      prevBtStatus := BatteryStatus(isCharging, p.batteryLifePercent);
    }

    /** Tasktray::showMenu: nothing if the cursor position or the menu cannot
        be obtained; otherwise track the menu, terminate on Quit, and destroy
        the menu on both paths. */
    method ShowMenu(mo: MenuOutcome)
      modifies this
      ensures requests == old(requests) + MenuRun(old(Held()), mo).log
      ensures Held() == MenuRun(old(Held()), mo).res
      ensures prevBtStatus == old(prevBtStatus) && quirks == old(quirks)
    {
      MenuPieces(old(requests), old(Held()), mo);
      if !mo.cursorOk {
        return;
      }
      var hmenu := mo.hmenu;
      requests := requests + [CreatePopupMenu(hmenu)];
      if hmenu == 0 {
        return;
      }
      requests := requests + [TrackPopupMenu(hmenu, hwnd)];
      match mo.command {
        case Dismissed =>
        case Quit => Terminate();
      }
      requests := requests + [DestroyMenu(hmenu)];
    }

    /** Tasktray::handleMessage: carry out the routing decision. */
    method HandleMessage(m: Message, env: Environment) returns (reply: Reply)
      requires Valid()
      modifies this
      ensures Valid() && quirks == old(quirks)
      ensures reply == Dispatch(old(State()), m, env).reply
      ensures State() == Dispatch(old(State()), m, env).after
      ensures requests == old(requests) + Dispatch(old(State()), m, env).log
    {
      ghost var t := State();
      ghost var h := Dispatch(t, m, env);
      ghost var log := requests;
      var routing := Route(m);
      match routing.action {
        case Terminate =>
          Terminate();
          assert h == Handled(TrayState(Empty, t.prev), TeardownLog(t.res), ReturnZero);
          assert requests == old(requests) + h.log && State() == h.after;
        case PostQuitMessage =>
          requests := requests + [PostQuit];
          assert h == Handled(t, [PostQuit], ReturnZero);
          assert requests == old(requests) + h.log && State() == h.after;
        case ShowMenu =>
          ShowMenu(env.menu);
          ghost var r := MenuRun(t.res, env.menu);
          assert h == Handled(TrayState(r.res, t.prev), r.log, DefaultHandling);
          assert requests == old(requests) + h.log && State() == h.after;
        case CheckBattery =>
          CheckBatteryStatus(env.power);
          ghost var c := Evaluate(t.prev, env.power);
          assert h == Handled(TrayState(t.res, c.next), BalloonLog(t.res.hwnd, c.notify), DefaultHandling);
          assert requests == old(requests) + h.log && State() == h.after;
        case NoAction =>
          assert h == Handled(t, [], DefaultHandling);
          assert requests == old(requests) + h.log && State() == h.after;
      }
      reply := routing.reply;
      assert Valid() by {
        DispatchExtends(log, quirks, t, m, env);
      }
    }
  }

  /** What one GetMessageW call yields: a message to dispatch (a positive
      result), WM_QUIT (0), or an error (-1). */
  datatype Fetch = Got(msg: Message, env: Environment) | QuitReceived | FetchFailed

  /** wWinMain: quit at once with 0 when BatteryFlag reports no system
      battery; otherwise build the Tasktray, dispatch messages until
      GetMessageW yields 0 or -1, destroy the Tasktray and return 0. The
      second result is every call made into the operating system. */
  method WinMain(startup: PowerStatus, o: SetupOutcome, fetches: seq<Fetch>)
    returns (exitCode: int, requests: seq<Request>)
    ensures exitCode == 0
    ensures HasNoBattery(startup.batteryFlag) ==> requests == []
    ensures !HasNoBattery(startup.batteryFlag) ==>
      requests != [] && requests[0] == RegisterClass(o.atom) &&
      Released(requests) == Acquired(requests) + SetupQuirks(o)
    ensures Acquired(requests) <= Released(requests)
  {
    if HasNoBattery(startup.batteryFlag) {
      return 0, [];
    }
    var tasktray := new Tasktray(o);
    var i := 0;
    while i < |fetches| && fetches[i].Got?
      invariant 0 <= i <= |fetches|
      invariant tasktray.Valid() && tasktray.quirks == SetupQuirks(o)
      invariant tasktray.requests != [] && tasktray.requests[0] == RegisterClass(o.atom)
    {
      var _ := tasktray.HandleMessage(fetches[i].msg, fetches[i].env);
      i := i + 1;
    }
    tasktray.Destroy();
    OwnedEmpty();
    return 0, tasktray.requests;
  }
}
