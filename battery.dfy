/** The battery check of the tray utility: the two bit tests on BatteryFlag,
    and the edge-triggered decision to show the "charge has exceeded 90%"
    balloon, which fires on the transition into "at least 90% and charging"
    and never while the battery stays there. */
module Battery {
  import opened Win32

  // Bits of SYSTEM_POWER_STATUS.BatteryFlag.
  const High: Byte := 1
  const Low: Byte := 2
  const Critical: Byte := 4
  const Charging: Byte := 8
  const NoSystemBattery: Byte := 128
  const UnknownStatus: Byte := 255

  /** BatteryLifePercent when the operating system does not know the charge. */
  const BatteryLifePercentUnknown: Byte := 255
  /** The charge, in percent, at which the balloon is shown. */
  const NotifyPercent: Byte := 90

  /** The two fields of SYSTEM_POWER_STATUS the program reads. */
  datatype PowerStatus = PowerStatus(batteryFlag: Byte, batteryLifePercent: Byte)

  /** The status the monitor remembers between checks (prevBtStatus_). */
  datatype BatteryStatus = BatteryStatus(isCharging: bool, percent: Byte)

  /** prevBtStatus_ as value-initialised by the constructor. */
  const InitialStatus := BatteryStatus(false, 0)

  /** BatteryFlag & Charging: set exactly when the flag's value modulo 16 is at least 8. */
  function IsCharging(flag: Byte): (r: bool)
    ensures r <==> flag % 16 >= 8
  {
    flag & Charging != 0
  }

  /** BatteryFlag & NoSystemBattery: set exactly when the flag's value is at least 128. */
  function HasNoBattery(flag: Byte): (r: bool)
    ensures r <==> flag >= 128
  {
    flag & NoSystemBattery != 0
  }

  /** A plain bit test counts UnknownStatus (255) both as charging and as "no battery". */
  lemma UnknownFlagQuirk()
    ensures IsCharging(UnknownStatus) && HasNoBattery(UnknownStatus)
    ensures !IsCharging(High) && !IsCharging(Low) && !IsCharging(Critical)
  {
  }

  /** A reading is evaluated only when its percentage is known. */
  predicate Known(p: PowerStatus) {
    p.batteryLifePercent != BatteryLifePercentUnknown
  }

  /** The status a known reading is recorded as. */
  function StatusOf(p: PowerStatus): BatteryStatus {
    BatteryStatus(IsCharging(p.batteryFlag), p.batteryLifePercent)
  }

  /** The condition whose onset the balloon announces. */
  predicate Full(s: BatteryStatus) {
    s.percent >= NotifyPercent && s.isCharging
  }

  datatype Check = Check(next: BatteryStatus, notify: bool)

  /** One run of checkBatteryStatus: whether it shows the balloon, and what
      prevBtStatus_ becomes. */
  function Evaluate(prev: BatteryStatus, p: PowerStatus): (r: Check)
    ensures !Known(p) ==> r.next == prev && !r.notify
    ensures Known(p) ==> r.next == StatusOf(p)
    ensures r.notify <==> Known(p) && Full(StatusOf(p)) && !Full(prev)
  {
    if p.batteryLifePercent == BatteryLifePercentUnknown then
      Check(prev, false)
    else
      var isCharging := IsCharging(p.batteryFlag);
      var notify := p.batteryLifePercent >= NotifyPercent && isCharging &&
                    (!prev.isCharging || prev.percent < NotifyPercent);
      Check(BatteryStatus(isCharging, p.batteryLifePercent), notify)
  }

  /** Whether each of a sequence of checks shows the balloon, starting from `prev`. */
  function Notifications(prev: BatteryStatus, ps: seq<PowerStatus>): (r: seq<bool>)
    ensures |r| == |ps|
    decreases |ps|
  {
    if ps == [] then [] else
      var c := Evaluate(prev, ps[0]);
      [c.notify] + Notifications(c.next, ps[1..])
  }

  /** prevBtStatus_ after a sequence of checks starting from `prev`. */
  function Final(prev: BatteryStatus, ps: seq<PowerStatus>): BatteryStatus
    decreases |ps|
  {
    if ps == [] then prev else Final(Evaluate(prev, ps[0]).next, ps[1..])
  }

  /** The index of the last reading with a known percentage, or -1 when there is none. */
  function LastKnownIndex(ps: seq<PowerStatus>): (k: int)
    ensures -1 <= k < |ps|
    ensures k >= 0 ==> Known(ps[k])
    ensures forall m :: k < m < |ps| ==> !Known(ps[m])
    decreases |ps|
  {
    if ps == [] then -1
    else if Known(ps[|ps| - 1]) then |ps| - 1
    else LastKnownIndex(ps[..|ps| - 1])
  }

  /** The status of the last evaluated reading, or `prev` when none was evaluated. */
  function LastStatus(prev: BatteryStatus, ps: seq<PowerStatus>): BatteryStatus {
    var k := LastKnownIndex(ps);
    if k < 0 then prev else StatusOf(ps[k])
  }

  lemma {:induction false} FinalSnoc(prev: BatteryStatus, ps: seq<PowerStatus>, p: PowerStatus)
    ensures Final(prev, ps + [p]) == Evaluate(Final(prev, ps), p).next
    decreases |ps|
  {
    if ps == [] {
      assert [p][1..] == [];
    } else {
      assert (ps + [p])[1..] == ps[1..] + [p];
      FinalSnoc(Evaluate(prev, ps[0]).next, ps[1..], p);
    }
  }

  /** prevBtStatus_ always holds the last reading that was evaluated: unknown
      readings leave no trace. */
  lemma {:induction false} FinalIsLastKnown(prev: BatteryStatus, ps: seq<PowerStatus>)
    ensures Final(prev, ps) == LastStatus(prev, ps)
    decreases |ps|
  {
    if ps != [] {
      var init := ps[..|ps| - 1];
      assert ps == init + [ps[|ps| - 1]];
      FinalSnoc(prev, init, ps[|ps| - 1]);
      FinalIsLastKnown(prev, init);
    }
  }

  /** The i-th check shows the balloon exactly when that reading is known and
      full and the status recorded before it was not full. */
  lemma {:induction false} NotifiesAt(prev: BatteryStatus, ps: seq<PowerStatus>, i: nat)
    requires i < |ps|
    ensures Notifications(prev, ps)[i] <==>
      Known(ps[i]) && Full(StatusOf(ps[i])) && !Full(LastStatus(prev, ps[..i]))
    decreases i
  {
    if i == 0 {
      assert ps[..0] == [];
    } else {
      var next := Evaluate(prev, ps[0]).next;
      NotifiesAt(next, ps[1..], i - 1);
      assert ps[1..][..i - 1] == ps[..i][1..];
      assert Final(prev, ps[..i]) == Final(next, ps[1..][..i - 1]);
      FinalIsLastKnown(prev, ps[..i]);
      FinalIsLastKnown(next, ps[1..][..i - 1]);
    }
  }

  /** Between two balloons there is always a known reading that is not full:
      within one maximal run of full readings the balloon is shown at most once. */
  lemma AtMostOncePerRun(prev: BatteryStatus, ps: seq<PowerStatus>, i: nat, j: nat)
    requires i < j < |ps|
    requires Notifications(prev, ps)[i] && Notifications(prev, ps)[j]
    ensures exists k :: i < k < j && Known(ps[k]) && !Full(StatusOf(ps[k]))
  {
    NotifiesAt(prev, ps, i);
    NotifiesAt(prev, ps, j);
    var before := ps[..j];
    var k := LastKnownIndex(before);
    assert before[i] == ps[i];
    assert k >= i;
    assert before[k] == ps[k];
    assert k != i;
  }

  /** Every known reading from index i to index j (both included) is full. */
  predicate FullFrom(ps: seq<PowerStatus>, i: nat, j: nat)
    requires i <= j < |ps|
  {
    forall m :: i <= m <= j && Known(ps[m]) ==> Full(StatusOf(ps[m]))
  }

  /** Every full reading belongs to a run that began with a balloon: there is
      an earlier (or the same) check that showed it, and every known reading
      from there on is full. */
  lemma {:induction false} EveryRunNotifies(prev: BatteryStatus, ps: seq<PowerStatus>, j: nat)
    requires !Full(prev)
    requires j < |ps| && Known(ps[j]) && Full(StatusOf(ps[j]))
    ensures exists i :: 0 <= i <= j && Notifications(prev, ps)[i] && FullFrom(ps, i, j)
    decreases j
  {
    NotifiesAt(prev, ps, j);
    if !Notifications(prev, ps)[j] {
      var before := ps[..j];
      var k := LastKnownIndex(before);
      assert k >= 0;
      assert before[k] == ps[k];
      EveryRunNotifies(prev, ps, k);
      var i :| 0 <= i <= k && Notifications(prev, ps)[i] && FullFrom(ps, i, k);
      assert forall m :: k < m < j ==> before[m] == ps[m];
    }
  }

  /** Because prevBtStatus_ starts as (false, 0), the first full reading
      always shows the balloon. */
  lemma FirstFullNotifies(ps: seq<PowerStatus>, j: nat)
    requires j < |ps| && Known(ps[j]) && Full(StatusOf(ps[j]))
    requires forall m :: 0 <= m < j && Known(ps[m]) ==> !Full(StatusOf(ps[m]))
    ensures Notifications(InitialStatus, ps)[j]
  {
    NotifiesAt(InitialStatus, ps, j);
    var k := LastKnownIndex(ps[..j]);
    if k >= 0 {
      assert ps[..j][k] == ps[k];
    }
  }

  /** 70, 92, 95, 60, 91 percent, all charging: balloons on the 2nd and 5th readings. */
  lemma RisingEdgesScenario()
    ensures Notifications(InitialStatus,
      [PowerStatus(Charging, 70), PowerStatus(Charging, 92), PowerStatus(Charging, 95),
       PowerStatus(Charging, 60), PowerStatus(Charging, 91)]) == [false, true, false, false, true]
  {
    var c := Charging;
    assert Notifications(BatteryStatus(true, 60), [PowerStatus(c, 91)]) == [true];
    assert Notifications(BatteryStatus(true, 95), [PowerStatus(c, 60), PowerStatus(c, 91)]) == [false, true];
    assert Notifications(BatteryStatus(true, 92),
      [PowerStatus(c, 95), PowerStatus(c, 60), PowerStatus(c, 91)]) == [false, false, true];
    assert Notifications(BatteryStatus(true, 70),
      [PowerStatus(c, 92), PowerStatus(c, 95), PowerStatus(c, 60), PowerStatus(c, 91)]) == [true, false, false, true];
  }

  /** 92 charging, 92 not charging, 92 charging: balloons on the 1st and 3rd readings. */
  lemma ChargerReplugScenario()
    ensures Notifications(InitialStatus,
      [PowerStatus(Charging, 92), PowerStatus(High, 92), PowerStatus(Charging, 92)]) == [true, false, true]
  {
    assert Notifications(BatteryStatus(false, 92), [PowerStatus(Charging, 92)]) == [true];
    assert Notifications(BatteryStatus(true, 92), [PowerStatus(High, 92), PowerStatus(Charging, 92)]) == [false, true];
  }
}
