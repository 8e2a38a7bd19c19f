/** The message handling of the tray monitor: which action each window
    message leads to, the popup menu's two outcomes, and the whole effect of
    one message on the monitor's state, as values. */
module Monitor {
  import opened Win32
  import opened Battery
  import opened Lifecycle

  /** Tasktray::tasktrayIconID, the uID of the tray icon. */
  const TasktrayIconId: nat := 100
  /** Tasktray::WM_TASKTRAY_CALLBACK, the message the tray icon sends. */
  const WM_TASKTRAY_CALLBACK: nat := WM_APP + 1

  /** A window message. `setting` is the PowerSetting of the
      POWERBROADCAST_SETTING that lParam points to; it is read only for
      WM_POWERBROADCAST with PBT_POWERSETTINGCHANGE. */
  datatype Message = Message(uMsg: nat, wParam: nat, lParam: nat, setting: Guid)

  /** What handleMessage does besides choosing its return value. */
  datatype Action = Terminate | PostQuitMessage | ShowMenu | CheckBattery | NoAction

  /** handleMessage returns 0 itself, or what DefWindowProcW returns. */
  datatype Reply = ReturnZero | DefaultHandling

  datatype Routing = Routing(action: Action, reply: Reply)

  predicate Watched(g: Guid) {
    g == BatteryPercentageRemaining || g == AcdcPowerSource
  }

  /** The switch of Tasktray::handleMessage. The two power-setting tests are
      consecutive ifs in the program; since the two watched settings are
      different GUIDs, at most one of them holds, so at most one check runs. */
  function Route(m: Message): (r: Routing)
    ensures r.reply == ReturnZero <==> m.uMsg == WM_CLOSE || m.uMsg == WM_DESTROY
    ensures r.action == Terminate <==> m.uMsg == WM_CLOSE
    ensures r.action == PostQuitMessage <==> m.uMsg == WM_DESTROY
    ensures r.action == ShowMenu <==>
      m.uMsg == WM_TASKTRAY_CALLBACK && m.wParam == TasktrayIconId &&
      (m.lParam == WM_LBUTTONUP || m.lParam == WM_RBUTTONUP)
    ensures r.action == CheckBattery <==>
      m.uMsg == WM_POWERBROADCAST && m.wParam == PBT_POWERSETTINGCHANGE && Watched(m.setting)
  {
    if m.uMsg == WM_CLOSE then Routing(Terminate, ReturnZero)
    else if m.uMsg == WM_DESTROY then Routing(PostQuitMessage, ReturnZero)
    else if m.uMsg == WM_TASKTRAY_CALLBACK then
      if m.wParam == TasktrayIconId && (m.lParam == WM_LBUTTONUP || m.lParam == WM_RBUTTONUP)
      then Routing(ShowMenu, DefaultHandling)
      else Routing(NoAction, DefaultHandling)
    else if m.uMsg == WM_POWERBROADCAST then
      if m.wParam == PBT_POWERSETTINGCHANGE && Watched(m.setting) then Routing(CheckBattery, DefaultHandling)
      else Routing(NoAction, DefaultHandling)
    else Routing(NoAction, DefaultHandling)
  }

  /** The command TrackPopupMenuEx returns: Cmd::None when the menu is
      dismissed, Cmd::Quit when "Quit" is chosen. */
  datatype MenuCommand = Dismissed | Quit

  /** What the operating system answers to showMenu's requests: whether
      GetCursorPos succeeded, the HMENU from CreatePopupMenu, and the command
      chosen. */
  datatype MenuOutcome = MenuOutcome(cursorOk: bool, hmenu: Handle, command: MenuCommand)

  datatype MenuResult = MenuResult(res: Resources, log: seq<Request>)

  /** Tasktray::showMenu: create the menu, track it, terminate on Quit, and
      destroy the menu. */
  function MenuRun(res: Resources, mo: MenuOutcome): MenuResult {
    if !mo.cursorOk then MenuResult(res, [])
    else if mo.hmenu == 0 then MenuResult(res, [CreatePopupMenu(0)])
    else
      var shown := [CreatePopupMenu(mo.hmenu), TrackPopupMenu(mo.hmenu, res.hwnd)];
      match mo.command
      case Dismissed => MenuResult(res, shown + [DestroyMenu(mo.hmenu)])
      case Quit => MenuResult(Empty, shown + TeardownLog(res) + [DestroyMenu(mo.hmenu)])
  }

  /** showMenu's requests, issued one at a time, make up its log on each path. */
  lemma MenuPieces(log: seq<Request>, res: Resources, mo: MenuOutcome)
    ensures !mo.cursorOk ==> log == log + MenuRun(res, mo).log
    ensures mo.cursorOk && mo.hmenu == 0 ==> log + [CreatePopupMenu(mo.hmenu)] == log + MenuRun(res, mo).log
    ensures mo.cursorOk && mo.hmenu != 0 && mo.command == Dismissed ==>
      log + [CreatePopupMenu(mo.hmenu)] + [TrackPopupMenu(mo.hmenu, res.hwnd)] + [DestroyMenu(mo.hmenu)] ==
      log + MenuRun(res, mo).log
    ensures mo.cursorOk && mo.hmenu != 0 && mo.command == Quit ==>
      log + [CreatePopupMenu(mo.hmenu)] + [TrackPopupMenu(mo.hmenu, res.hwnd)] + TeardownLog(res) +
        [DestroyMenu(mo.hmenu)] == log + MenuRun(res, mo).log
  {
  }

  lemma ShownTally(h: Handle, hwnd: Handle)
    requires h != 0
    ensures Acquired([CreatePopupMenu(h), TrackPopupMenu(h, hwnd)]) == multiset{PopupMenu(h)}
    ensures Released([CreatePopupMenu(h), TrackPopupMenu(h, hwnd)]) == multiset{}
  {
    TallyOne(CreatePopupMenu(h));
    TallyOne(TrackPopupMenu(h, hwnd));
    assert [CreatePopupMenu(h), TrackPopupMenu(h, hwnd)] == [CreatePopupMenu(h)] + [TrackPopupMenu(h, hwnd)];
    TallyAppend([CreatePopupMenu(h)], [TrackPopupMenu(h, hwnd)]);
  }

  lemma ShownThenDestroyedTally(shown: seq<Request>, middle: seq<Request>, h: Handle)
    requires Acquired(shown) == multiset{PopupMenu(h)} && Released(shown) == multiset{}
    requires Acquired(middle) == multiset{}
    ensures Acquired(shown + middle + [DestroyMenu(h)]) == multiset{PopupMenu(h)}
    ensures Released(shown + middle + [DestroyMenu(h)]) == multiset{PopupMenu(h)} + Released(middle)
  {
    TallyOne(DestroyMenu(h));
    TallyAppend(shown, middle);
    TallyAppend(shown + middle, [DestroyMenu(h)]);
  }

  lemma DismissedMenuTally(res: Resources, mo: MenuOutcome)
    requires mo.cursorOk && mo.hmenu != 0 && mo.command == Dismissed
    ensures Acquired(MenuRun(res, mo).log) == multiset{PopupMenu(mo.hmenu)}
    ensures Released(MenuRun(res, mo).log) == multiset{PopupMenu(mo.hmenu)}
  {
    var h := mo.hmenu;
    var shown := [CreatePopupMenu(h), TrackPopupMenu(h, res.hwnd)];
    assert MenuRun(res, mo).log == shown + [] + [DestroyMenu(h)];
    ShownTally(h, res.hwnd);
    ShownThenDestroyedTally(shown, [], h);
  }

  lemma QuitMenuTally(res: Resources, mo: MenuOutcome)
    requires mo.cursorOk && mo.hmenu != 0 && mo.command == Quit
    ensures Acquired(MenuRun(res, mo).log) == multiset{PopupMenu(mo.hmenu)}
    ensures Released(MenuRun(res, mo).log) == multiset{PopupMenu(mo.hmenu)} + Owned(res)
  {
    var h := mo.hmenu;
    var shown := [CreatePopupMenu(h), TrackPopupMenu(h, res.hwnd)];
    assert MenuRun(res, mo).log == shown + TeardownLog(res) + [DestroyMenu(h)];
    ShownTally(h, res.hwnd);
    TeardownReleasesOwned(res);
    ShownThenDestroyedTally(shown, TeardownLog(res), h);
  }

  /** The popup menu is destroyed exactly once when it was created, as the
      last request, on both the Quit and the dismiss path; Quit gives back
      every held resource, and the menu otherwise changes nothing. */
  lemma MenuDestroyedOnce(res: Resources, mo: MenuOutcome)
    ensures var r := MenuRun(res, mo);
      var created := mo.cursorOk && mo.hmenu != 0;
      && Acquired(r.log) == (if created then multiset{PopupMenu(mo.hmenu)} else multiset{})
      && Released(r.log) == (if created then multiset{PopupMenu(mo.hmenu)} else multiset{}) +
                            (if created && mo.command == Quit then Owned(res) else multiset{})
      && (created ==> r.log[|r.log| - 1] == DestroyMenu(mo.hmenu))
      && r.res == (if created && mo.command == Quit then Empty else res)
  {
    if !mo.cursorOk {
    } else if mo.hmenu == 0 {
      TallyOne(CreatePopupMenu(0));
    } else if mo.command == Quit {
      QuitMenuTally(res, mo);
    } else {
      DismissedMenuTally(res, mo);
    }
  }

  /** The state of a Tasktray: its handles and prevBtStatus_. */
  datatype TrayState = TrayState(res: Resources, prev: BatteryStatus)

  /** What the operating system answers while a message is handled: the
      battery reading and the popup menu's outcome. */
  datatype Environment = Environment(power: PowerStatus, menu: MenuOutcome)

  datatype Handled = Handled(after: TrayState, log: seq<Request>, reply: Reply)

  /** The balloon checkBatteryStatus shows when the edge is crossed. */
  function BalloonLog(hwnd: Handle, notify: bool): seq<Request> {
    if notify then [ShowBalloon(hwnd)] else []
  }

  /** Tasktray::handleMessage: the routing decision carried out. */
  function Dispatch(t: TrayState, m: Message, env: Environment): Handled {
    var routing := Route(m);
    match routing.action
    case Terminate => Handled(TrayState(Empty, t.prev), TeardownLog(t.res), routing.reply)
    case PostQuitMessage => Handled(t, [PostQuit], routing.reply)
    case ShowMenu =>
      var r := MenuRun(t.res, env.menu);
      Handled(TrayState(r.res, t.prev), r.log, routing.reply)
    case CheckBattery =>
      var c := Evaluate(t.prev, env.power);
      Handled(TrayState(t.res, c.next), BalloonLog(t.res.hwnd, c.notify), routing.reply)
    case NoAction => Handled(t, [], routing.reply)
  }

  /** A log that moves a monitor from holding `before` to holding `after`
      obtains and gives back in step with that change. */
  predicate Balances(log: seq<Request>, before: Resources, after: Resources) {
    Acquired(log) + Owned(before) == Released(log) + Owned(after)
  }

  lemma TeardownBalances(res: Resources)
    ensures Balances(TeardownLog(res), res, Empty)
  {
    TeardownReleasesOwned(res);
    OwnedEmpty();
  }

  lemma MenuBalances(res: Resources, mo: MenuOutcome)
    ensures Balances(MenuRun(res, mo).log, res, MenuRun(res, mo).res)
  {
    MenuDestroyedOnce(res, mo);
    OwnedEmpty();
  }

  lemma QuietBalances(log: seq<Request>, res: Resources)
    requires log == [] || log == [PostQuit] || log == [ShowBalloon(res.hwnd)]
    ensures Balances(log, res, res)
  {
    if log != [] {
      TallyOne(log[0]);
    }
    assert Acquired(log) == multiset{} && Released(log) == multiset{};
  }

  /** The account a whole run keeps: what was ever obtained, plus the quirky
      releases, equals what was ever given back plus what is held now. */
  predicate Account(log: seq<Request>, quirks: multiset<Resource>, held: Resources) {
    Acquired(log) + quirks == Released(log) + Owned(held)
  }

  /** Extending a log that keeps the account by a balanced step keeps it. */
  lemma BalanceExtends(log: seq<Request>, step: seq<Request>, before: Resources, after: Resources,
                       quirks: multiset<Resource>)
    requires Account(log, quirks, before)
    requires Balances(step, before, after)
    ensures Account(log + step, quirks, after)
  {
    TallyAppend(log, step);
    forall e ensures (Acquired(log + step) + quirks)[e] == (Released(log + step) + Owned(after))[e] {
      assert (Acquired(log) + quirks)[e] == (Released(log) + Owned(before))[e];
      assert (Acquired(step) + Owned(before))[e] == (Released(step) + Owned(after))[e];
    }
  }

  /** Terminate keeps the account of a log it extends, leaving nothing held. */
  lemma TeardownExtends(log: seq<Request>, res: Resources, quirks: multiset<Resource>)
    requires Account(log, quirks, res)
    ensures Account(log + TeardownLog(res), quirks, Empty)
  {
    TeardownBalances(res);
    BalanceExtends(log, TeardownLog(res), res, Empty, quirks);
  }

  /** Whatever message arrives, what it obtains plus what the monitor held
      before equals what it gives back plus what the monitor holds after:
      handling a message never leaks a resource nor gives one back twice. */
  lemma DispatchKeepsBalance(t: TrayState, m: Message, env: Environment)
    ensures Balances(Dispatch(t, m, env).log, t.res, Dispatch(t, m, env).after.res)
  {
    var h := Dispatch(t, m, env);
    match Route(m).action
    case Terminate => TeardownBalances(t.res);
    case ShowMenu => MenuBalances(t.res, env.menu);
    case PostQuitMessage => QuietBalances(h.log, t.res);
    case CheckBattery => QuietBalances(h.log, t.res);
    case NoAction => QuietBalances(h.log, t.res);
  }

  /** Handling any message keeps the account of the run it extends. */
  lemma DispatchExtends(log: seq<Request>, quirks: multiset<Resource>, t: TrayState, m: Message, env: Environment)
    requires Account(log, quirks, t.res)
    ensures Account(log + Dispatch(t, m, env).log, quirks, Dispatch(t, m, env).after.res)
  {
    DispatchKeepsBalance(t, m, env);
    BalanceExtends(log, Dispatch(t, m, env).log, t.res, Dispatch(t, m, env).after.res, quirks);
  }

  /** A second WM_CLOSE issues no request at all: terminate is idempotent. */
  lemma CloseTwiceIsQuiet(t: TrayState, m: Message, env: Environment, m': Message, env': Environment)
    requires m.uMsg == WM_CLOSE && m'.uMsg == WM_CLOSE
    ensures Dispatch(Dispatch(t, m, env).after, m', env').log == []
    ensures Dispatch(Dispatch(t, m, env).after, m', env').after == Dispatch(t, m, env).after
  {
  }

  /** Once terminated, no message makes the monitor ask for anything back
      again or acquire anything other than a popup menu it also destroys. */
  lemma TerminatedStaysQuiet(prev: BatteryStatus, m: Message, env: Environment)
    ensures var h := Dispatch(TrayState(Empty, prev), m, env);
      && h.after.res == Empty
      && Released(h.log) == Acquired(h.log)
  {
    DispatchKeepsBalance(TrayState(Empty, prev), m, env);
    OwnedEmpty();
    if Route(m).action == ShowMenu {
      MenuDestroyedOnce(Empty, env.menu);
    }
  }
}
