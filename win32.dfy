/** The operating-system values the tray utility deals in, and the record of
    the requests it makes to the operating system.

    Handles (HWND, HPOWERNOTIFY, HMENU) and class atoms are opaque numbers in
    which 0 plays the part of null, i.e. of a failed acquisition. A `Request`
    is one call into the operating system together with the outcome the
    program looks at; `Acquired` and `Released` read a log of requests as the
    resources it obtained and the resources it asked to give back. */
module Win32 {

  /** BYTE: an unsigned 8-bit value with C++'s bitwise operators. */
  type Byte = bv8

  /** An opaque handle or atom; 0 stands for null / failure. */
  type Handle = nat

  datatype Option<T> = None | Some(value: T)

  // Message numbers and codes, as the Windows SDK headers define them.
  const WM_DESTROY: nat := 0x0002
  const WM_CLOSE: nat := 0x0010
  const WM_POWERBROADCAST: nat := 0x0218
  const WM_LBUTTONUP: nat := 0x0202
  const WM_RBUTTONUP: nat := 0x0205
  const WM_APP: nat := 0x8000
  const PBT_POWERSETTINGCHANGE: nat := 0x8013

  /** The power setting a WM_POWERBROADCAST / PBT_POWERSETTINGCHANGE message is about. */
  datatype Guid = BatteryPercentageRemaining | AcdcPowerSource | OtherSetting(id: nat)

  /** One call into the operating system. */
  datatype Request =
    | RegisterClass(atom: Handle)                  // RegisterClassExW; 0 means it failed
    | CreateWindow(hwnd: Handle)                   // CreateWindowExW; 0 means it failed
    | AddIcon(hwnd: Handle, added: bool)           // Shell_NotifyIconW(NIM_ADD)
    | RegisterPowerSetting(hwnd: Handle, setting: Guid, hpn: Handle)  // 0 means it failed
    | UnregisterPowerSetting(hpn: Handle)
    | DeleteIcon(hwnd: Handle)                     // Shell_NotifyIconW(NIM_DELETE)
    | DestroyWindow(hwnd: Handle)
    | UnregisterClass(atom: Handle)
    | ShowBalloon(hwnd: Handle)                    // Shell_NotifyIconW(NIM_MODIFY) with NIF_INFO
    | CreatePopupMenu(hmenu: Handle)               // 0 means it failed
    | TrackPopupMenu(hmenu: Handle, hwnd: Handle)
    | DestroyMenu(hmenu: Handle)
    | PostQuit                                     // PostQuitMessage(0)

  /** Something the operating system hands out and expects back. */
  datatype Resource =
    | WindowClass(atom: Handle)
    | Window(hwnd: Handle)
    | TrayIcon(hwnd: Handle)
    | PowerSubscription(hpn: Handle)
    | PopupMenu(hmenu: Handle)

  /** The resource a request obtained, if it succeeded in obtaining one. */
  function AcquiredBy(r: Request): multiset<Resource> {
    match r
    case RegisterClass(atom) => if atom != 0 then multiset{WindowClass(atom)} else multiset{}
    case CreateWindow(hwnd) => if hwnd != 0 then multiset{Window(hwnd)} else multiset{}
    case AddIcon(hwnd, added) => if added then multiset{TrayIcon(hwnd)} else multiset{}
    case RegisterPowerSetting(_, _, hpn) => if hpn != 0 then multiset{PowerSubscription(hpn)} else multiset{}
    case CreatePopupMenu(hmenu) => if hmenu != 0 then multiset{PopupMenu(hmenu)} else multiset{}
    case _ => multiset{}
  }

  /** The resource a request asks the operating system to take back. */
  function ReleasedBy(r: Request): multiset<Resource> {
    match r
    case UnregisterPowerSetting(hpn) => multiset{PowerSubscription(hpn)}
    case DeleteIcon(hwnd) => multiset{TrayIcon(hwnd)}
    case DestroyWindow(hwnd) => multiset{Window(hwnd)}
    case UnregisterClass(atom) => multiset{WindowClass(atom)}
    case DestroyMenu(hmenu) => multiset{PopupMenu(hmenu)}
    case _ => multiset{}
  }

  /** Every resource a log of requests obtained, counted with multiplicity. */
  function Acquired(log: seq<Request>): multiset<Resource> {
    if log == [] then multiset{} else Acquired(log[..|log| - 1]) + AcquiredBy(log[|log| - 1])
  }

  /** Every release a log of requests asked for, counted with multiplicity. */
  function Released(log: seq<Request>): multiset<Resource> {
    if log == [] then multiset{} else Released(log[..|log| - 1]) + ReleasedBy(log[|log| - 1])
  }

  lemma TallyOne(r: Request)
    ensures Acquired([r]) == AcquiredBy(r)
    ensures Released([r]) == ReleasedBy(r)
  {
    assert [r][..0] == [];
  }

  /** The accounting of a log is the sum of the accounting of its parts. */
  lemma {:induction false} TallyAppend(a: seq<Request>, b: seq<Request>)
    ensures Acquired(a + b) == Acquired(a) + Acquired(b)
    ensures Released(a + b) == Released(a) + Released(b)
    decreases |b|
  {
    if b != [] {
      var b' := b[..|b| - 1];
      assert (a + b)[..|a + b| - 1] == a + b';
      assert (a + b)[|a + b| - 1] == b[|b| - 1];
      TallyAppend(a, b');
    } else {
      assert a + b == a;
    }
  }
}
