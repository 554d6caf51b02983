/** The HID report sender of the joystick firmware. Each poll sends one
    report for the requested report ID; for the keyboard, consumer-control
    and gamepad reports a "key was down" flag makes sure a release report is
    sent once after a press and never again until the next press. When the
    host confirms a report, the next report ID in the chain is sent while it
    is below `REPORT_ID_COUNT`.

    The keyboard, mouse and consumer-control report IDs are not defined by
    the firmware's descriptor header (it defines only the gamepad and CDC
    IDs), so they are parameters here; the C `switch` needs them distinct
    from each other and from the gamepad ID. The USB stack's readiness, the
    suspended state and the board button are parameters too. */
module UsbHid {
  import opened CTypes

  const REPORT_ID_GAMEPAD: int := 1
  const REPORT_ID_CDC: int := 2
  const REPORT_ID_COUNT: int := 3

  /** Usage of the Volume Decrement control on the Consumer page (HID Usage
      Tables, section 15). */
  const VOLUME_DECREMENT: int := 0x00EA
  /** The mouse movement of every mouse report, right and down. */
  const MOUSE_DELTA: int := 5

  /** The report IDs the firmware leaves to its configuration. */
  datatype ReportIds = ReportIds(keyboard: Byte, mouse: Byte, consumer: Byte)

  /** Distinct `case` labels, as the C `switch` requires. */
  predicate ValidIds(ids: ReportIds) {
    ids.keyboard != ids.mouse && ids.keyboard != ids.consumer && ids.mouse != ids.consumer &&
    ids.keyboard != REPORT_ID_GAMEPAD && ids.mouse != REPORT_ID_GAMEPAD &&
    ids.consumer != REPORT_ID_GAMEPAD
  }

  datatype Hat = Centered | Up

  /** The reports the firmware sends. A keyboard report either holds the key
      A in its first key slot or is the empty (all keys up) report; a consumer
      report carries one 16-bit usage, 0 for none; the gamepad report's axes
      are always 0. */
  datatype Report =
    | Keyboard(id: Byte, keyA: bool)
    | Mouse(id: Byte, buttons: int, dx: int, dy: int, wheel: int, pan: int)
    | Consumer(id: Byte, usage: int)
    | Gamepad(id: Byte, hat: Hat, buttonA: bool)

  datatype Kind = KeyboardKind | MouseKind | ConsumerKind | GamepadKind

  function KindOf(r: Report): Kind {
    match r
    case Keyboard(_, _) => KeyboardKind
    case Mouse(_, _, _, _, _, _) => MouseKind
    case Consumer(_, _) => ConsumerKind
    case Gamepad(_, _, _) => GamepadKind
  }

  /** A report that says "nothing pressed" for a kind that tracks presses. */
  predicate IsRelease(r: Report) {
    match r
    case Keyboard(_, keyA) => !keyA
    case Mouse(_, _, _, _, _, _) => false
    case Consumer(_, usage) => usage == 0
    case Gamepad(_, hat, buttonA) => hat == Centered && !buttonA
  }

  /** The "key was down" flags kept across calls. */
  datatype Flags = Flags(keyboard: bool, consumer: bool, gamepad: bool)

  /** The outcome of one `send_hid_report` call: the new flags and the
      reports sent (none or one). */
  datatype Sending = Sending(flags: Flags, reports: seq<Report>)

  /** `send_hid_report`. */
  function Send(ids: ReportIds, f: Flags, ready: bool, reportId: Byte, btn: int): (r: Sending)
    requires ValidIds(ids)
    ensures |r.reports| <= 1
    ensures forall k :: 0 <= k < |r.reports| ==> r.reports[k].id == reportId
    // not ready: nothing is sent and no flag changes
    ensures !ready ==> r == Sending(f, [])
    // a release is sent only when the flag says a press went out before
    ensures |r.reports| == 1 && IsRelease(r.reports[0]) ==>
              match KindOf(r.reports[0])
              case KeyboardKind => f.keyboard
              case ConsumerKind => f.consumer
              case GamepadKind => f.gamepad
              case MouseKind => false
    // keyboard: key A while the button is down, one empty report after
    ensures ready && reportId == ids.keyboard ==>
              r.flags == f.(keyboard := btn != 0) &&
              r.reports == (if btn != 0 then [Keyboard(reportId, true)]
                            else if f.keyboard then [Keyboard(reportId, false)] else [])
    // mouse: always the same movement, no button
    ensures ready && reportId == ids.mouse ==>
              r == Sending(f, [Mouse(reportId, 0, MOUSE_DELTA, MOUSE_DELTA, 0, 0)])
    // consumer control: volume down while pressed, one empty usage after
    ensures ready && reportId == ids.consumer ==>
              r.flags == f.(consumer := btn != 0) &&
              r.reports == (if btn != 0 then [Consumer(reportId, VOLUME_DECREMENT)]
                            else if f.consumer then [Consumer(reportId, 0)] else [])
    // gamepad: hat up and button A while pressed, centred once after
    ensures ready && reportId == REPORT_ID_GAMEPAD ==>
              r.flags == f.(gamepad := btn != 0) &&
              r.reports == (if btn != 0 then [Gamepad(reportId, Up, true)]
                            else if f.gamepad then [Gamepad(reportId, Centered, false)] else [])
    // any other ID sends nothing
    ensures reportId !in {ids.keyboard, ids.mouse, ids.consumer, REPORT_ID_GAMEPAD} ==>
              r == Sending(f, [])
  {
    if !ready then Sending(f, [])
    else if reportId == ids.keyboard then
      if btn != 0 then Sending(f.(keyboard := true), [Keyboard(reportId, true)])
      else Sending(f.(keyboard := false), if f.keyboard then [Keyboard(reportId, false)] else [])
    else if reportId == ids.mouse then
      Sending(f, [Mouse(reportId, 0, MOUSE_DELTA, MOUSE_DELTA, 0, 0)])
    else if reportId == ids.consumer then
      if btn != 0 then Sending(f.(consumer := true), [Consumer(reportId, VOLUME_DECREMENT)])
      else Sending(f.(consumer := false), if f.consumer then [Consumer(reportId, 0)] else [])
    else if reportId == REPORT_ID_GAMEPAD then
      if btn != 0 then Sending(f.(gamepad := true), [Gamepad(reportId, Up, true)])
      else Sending(f.(gamepad := false), if f.gamepad then [Gamepad(reportId, Centered, false)] else [])
    else Sending(f, [])
  }

  /** The reports of one kind, in the order sent. */
  function OfKind(s: seq<Report>, k: Kind): (t: seq<Report>)
    ensures |t| <= |s|
    ensures forall i :: 0 <= i < |t| ==> KindOf(t[i]) == k
  {
    if s == [] then []
    else OfKind(s[..|s| - 1], k) + (if KindOf(s[|s| - 1]) == k then [s[|s| - 1]] else [])
  }

  /** Every release follows a press of the same kind: no two releases in a
      row, and no release before the first press. */
  ghost predicate ReleasesFollowPresses(s: seq<Report>) {
    forall i :: 0 <= i < |s| && IsRelease(s[i]) ==> 0 < i && !IsRelease(s[i - 1])
  }

  /** The last report of a sequence is a press. */
  ghost predicate Held(s: seq<Report>) {
    |s| > 0 && !IsRelease(s[|s| - 1])
  }

  /** A flag agrees with the reports of its kind, which alternate properly. */
  ghost predicate Tracks(flag: bool, sent: seq<Report>, k: Kind) {
    flag == Held(OfKind(sent, k)) && ReleasesFollowPresses(OfKind(sent, k))
  }

  ghost predicate Consistent(f: Flags, sent: seq<Report>) {
    Tracks(f.keyboard, sent, KeyboardKind) &&
    Tracks(f.consumer, sent, ConsumerKind) &&
    Tracks(f.gamepad, sent, GamepadKind)
  }

  /** The flag of a kind. */
  function FlagOf(f: Flags, k: Kind): bool {
    match k
    case KeyboardKind => f.keyboard
    case ConsumerKind => f.consumer
    case GamepadKind => f.gamepad
    case MouseKind => false
  }

  /** Sending a report adds it to the reports of its own kind only. */
  lemma OfKindAppend(s: seq<Report>, r: Report, k: Kind)
    ensures OfKind(s + [r], k) == OfKind(s, k) + (if KindOf(r) == k then [r] else [])
  {
    assert (s + [r])[..|s + [r]| - 1] == s;
  }

  /** No report of a kind has been sent: its flag can only be false. */
  lemma {:induction false} NothingSentIsConsistent()
    ensures Consistent(Flags(false, false, false), [])
  {
    assert OfKind([], KeyboardKind) == [];
    assert OfKind([], ConsumerKind) == [];
    assert OfKind([], GamepadKind) == [];
  }

  /** One kind's flag and history stay in step when a report is sent: the
      flag only changes with a report of its kind, it then says whether that
      report is a press, and a release goes out only while the flag is set. */
  lemma {:induction false} TracksAfterSend(flag: bool, flag': bool, sent: seq<Report>,
                                          out: seq<Report>, k: Kind)
    requires Tracks(flag, sent, k)
    requires |out| <= 1
    requires (|out| == 0 || KindOf(out[0]) != k) ==> flag' == flag
    requires |out| == 1 && KindOf(out[0]) == k ==>
               flag' == !IsRelease(out[0]) && (IsRelease(out[0]) ==> flag)
    ensures Tracks(flag', sent + out, k)
  {
    if out == [] {
      assert sent + out == sent;
    } else {
      OfKindAppend(sent, out[0], k);
      assert out == [out[0]];
    }
  }

  /** `send_hid_report` keeps every flag in step with the reports of its kind:
      releases are never sent twice in a row and never before a press. */
  lemma {:induction false} SendKeepsConsistent(ids: ReportIds, f: Flags, sent: seq<Report>,
                                              ready: bool, reportId: Byte, btn: int)
    requires ValidIds(ids) && Consistent(f, sent)
    ensures var r := Send(ids, f, ready, reportId, btn);
            Consistent(r.flags, sent + r.reports)
  {
    var r := Send(ids, f, ready, reportId, btn);
    KeepsTracking(ids, f, sent, ready, reportId, btn, KeyboardKind);
    KeepsTracking(ids, f, sent, ready, reportId, btn, ConsumerKind);
    KeepsTracking(ids, f, sent, ready, reportId, btn, GamepadKind);
  }

  /** The per-kind step of SendKeepsConsistent. */
  lemma {:induction false} KeepsTracking(ids: ReportIds, f: Flags, sent: seq<Report>,
                                        ready: bool, reportId: Byte, btn: int, k: Kind)
    requires ValidIds(ids) && k != MouseKind && Tracks(FlagOf(f, k), sent, k)
    ensures var r := Send(ids, f, ready, reportId, btn);
            Tracks(FlagOf(r.flags, k), sent + r.reports, k)
  {
    var r := Send(ids, f, ready, reportId, btn);
    TracksAfterSend(FlagOf(f, k), FlagOf(r.flags, k), sent, r.reports, k);
  }

  /** The report ID `tud_hid_report_complete_cb` sends next, if any: one
      more than the ID of the report just completed, computed in `uint8_t`,
      while it stays below `REPORT_ID_COUNT`. */
  function NextInChain(completedId: Byte): (next: Option<Byte>)
    ensures next.Some? <==> ToU8(completedId + 1) < REPORT_ID_COUNT
    ensures next.Some? ==> next.value == ToU8(completedId + 1) && next.value < REPORT_ID_COUNT
  {
    var n := ToU8(completedId + 1);
    if n < REPORT_ID_COUNT then Some(n) else None
  }

  /** After the gamepad report the chain tries the CDC ID, which sends
      nothing, and after that it stops. */
  lemma ChainAfterGamepad(ids: ReportIds, f: Flags, ready: bool, btn: int)
    requires ValidIds(ids)
    requires ids.keyboard != REPORT_ID_CDC && ids.mouse != REPORT_ID_CDC &&
             ids.consumer != REPORT_ID_CDC
    ensures NextInChain(REPORT_ID_GAMEPAD) == Some(REPORT_ID_CDC)
    ensures Send(ids, f, ready, REPORT_ID_CDC, btn) == Sending(f, [])
    ensures NextInChain(REPORT_ID_CDC) == None
  {
  }

  /** The HID side of the device: the static flags of `send_hid_report` and
      the reports handed to the USB stack so far. */
  class HidSender {
    const ids: ReportIds
    var flags: Flags
    var sent: seq<Report>
    var wakeups: nat

    ghost predicate Valid()
      reads this
    {
      ValidIds(ids) && Consistent(flags, sent)
    }

    constructor (ids: ReportIds)
      requires ValidIds(ids)
      ensures Valid()
      ensures this.ids == ids && flags == Flags(false, false, false) && sent == [] && wakeups == 0
    {
      this.ids := ids;
      flags := Flags(false, false, false);
      sent := [];
      wakeups := 0;
      NothingSentIsConsistent();
    }

    /** `send_hid_report`. */
    method SendReport(ready: bool, reportId: Byte, btn: int)
      requires Valid()
      modifies this`flags, this`sent
      ensures Valid()
      ensures var r := Send(ids, old(flags), ready, reportId, btn);
              flags == r.flags && sent == old(sent) + r.reports
    {
      // the flag updates and the report handed to the USB stack, decided
      // branch by branch as in the C `switch`
      var f := flags;
      var out: seq<Report> := [];
      if ready {
        if reportId == ids.keyboard {
          if btn != 0 {
            out := [Keyboard(reportId, true)];
            f := f.(keyboard := true);
          } else {
            if f.keyboard {
              out := [Keyboard(reportId, false)];
            }
            f := f.(keyboard := false);
          }
        } else if reportId == ids.mouse {
          out := [Mouse(reportId, 0, MOUSE_DELTA, MOUSE_DELTA, 0, 0)];
        } else if reportId == ids.consumer {
          if btn != 0 {
            out := [Consumer(reportId, VOLUME_DECREMENT)];
            f := f.(consumer := true);
          } else {
            if f.consumer {
              out := [Consumer(reportId, 0)];
            }
            f := f.(consumer := false);
          }
        } else if reportId == REPORT_ID_GAMEPAD {
          if btn != 0 {
            out := [Gamepad(reportId, Up, true)];
            f := f.(gamepad := true);
          } else {
            if f.gamepad {
              out := [Gamepad(reportId, Centered, false)];
            }
            f := f.(gamepad := false);
          }
        }
      }
      assert Send(ids, flags, ready, reportId, btn) == Sending(f, out);
      SendKeepsConsistent(ids, flags, sent, ready, reportId, btn);
      flags := f;
      sent := sent + out;
    }

    /** `tud_hid_report_complete_cb`: chain the next report, with the button
        read again. */
    method ReportComplete(ready: bool, completedId: Byte, btn: int)
      requires Valid()
      modifies this`flags, this`sent
      ensures Valid()
      ensures NextInChain(completedId).None? ==> flags == old(flags) && sent == old(sent)
      ensures NextInChain(completedId).Some? ==>
                var r := Send(ids, old(flags), ready, NextInChain(completedId).value, btn);
                flags == r.flags && sent == old(sent) + r.reports
    {
      var nextReportId := ToU8(completedId + 1);
      if nextReportId < REPORT_ID_COUNT {
        SendReport(ready, nextReportId, btn);
      }
    }

    /** One iteration of `hid_task`: a press while the bus is suspended
        wakes the host and sends nothing; otherwise the chain starts with
        the keyboard report. */
    method Poll(suspended: bool, ready: bool, btn: int)
      requires Valid()
      modifies this`flags, this`sent, this`wakeups
      ensures Valid()
      ensures suspended && btn != 0 ==>
                wakeups == old(wakeups) + 1 && flags == old(flags) && sent == old(sent)
      ensures !(suspended && btn != 0) ==>
                var r := Send(ids, old(flags), ready, ids.keyboard, btn);
                wakeups == old(wakeups) && flags == r.flags && sent == old(sent) + r.reports
    {
      if suspended && btn != 0 {
        wakeups := wakeups + 1;
      } else {
        SendReport(ready, ids.keyboard, btn);
      }
    }
  }
}
