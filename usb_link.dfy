/** The USB connection state of the ADC debugger: two flags, "device
    mounted" and "bus active", driven by the USB stack's mount, unmount,
    suspend and resume callbacks, and the CDC send that lights the on-board
    LED while it writes. Whether a CDC terminal is connected is a parameter. */
module UsbLink {

  /** The callbacks of the USB stack that touch the flags. */
  datatype Event = Mount | Unmount | Suspend(remoteWakeupEn: bool) | Resume

  /** `device_mounted` and `usb_bus_active`. */
  datatype Link = Link(mounted: bool, busActive: bool)

  const INITIAL: Link := Link(false, false)

  /** The effect of one callback. */
  function Apply(l: Link, e: Event): (r: Link)
    // mount sets both flags
    ensures e == Mount ==> r.mounted && r.busActive
    // unmount clears the mounted flag only
    ensures e == Unmount ==> !r.mounted && r.busActive == l.busActive
    // suspend clears both flags, whether or not remote wakeup is allowed
    ensures e.Suspend? ==> !r.mounted && !r.busActive
    // resume sets the bus flag only
    ensures e == Resume ==> r.mounted == l.mounted && r.busActive
  {
    match e
    case Mount => Link(true, true)
    case Unmount => l.(mounted := false)
    case Suspend(_) => Link(false, false)
    case Resume => l.(busActive := true)
  }

  /** The flags after a sequence of callbacks. */
  function Run(l: Link, es: seq<Event>): (r: Link)
    decreases |es|
  {
    if es == [] then l else Apply(Run(l, es[..|es| - 1]), es[|es| - 1])
  }

  /** A mounted device is always on an active bus. */
  ghost predicate Coherent(l: Link) {
    l.mounted ==> l.busActive
  }

  /** Every callback keeps the flags coherent. */
  lemma ApplyKeepsCoherent(l: Link, e: Event)
    requires Coherent(l)
    ensures Coherent(Apply(l, e))
  {
  }

  /** So does every sequence of callbacks. */
  lemma {:induction false} RunKeepsCoherent(l: Link, es: seq<Event>)
    requires Coherent(l)
    ensures Coherent(Run(l, es))
    decreases |es|
  {
    if es != [] {
      RunKeepsCoherent(l, es[..|es| - 1]);
      ApplyKeepsCoherent(Run(l, es[..|es| - 1]), es[|es| - 1]);
    }
  }

  /** Events that end a mount. */
  predicate EndsMount(e: Event) {
    e == Unmount || e.Suspend?
  }

  /** The device is mounted exactly when some mount has not been followed by
      an unmount or a suspend. */
  lemma {:induction false} MountedIff(es: seq<Event>)
    ensures Run(INITIAL, es).mounted <==>
              exists i :: 0 <= i < |es| && es[i] == Mount &&
                          forall j :: i < j < |es| ==> !EndsMount(es[j])
    decreases |es|
  {
    if es != [] {
      var init := es[..|es| - 1];
      var last := es[|es| - 1];
      MountedIff(init);
      if Run(INITIAL, es).mounted {
        if last == Mount {
          assert es[|es| - 1] == Mount;
        } else {
          var i :| 0 <= i < |init| && init[i] == Mount &&
                   forall j :: i < j < |init| ==> !EndsMount(init[j]);
          assert es[i] == Mount;
          assert forall j :: i < j < |es| ==> !EndsMount(es[j]) by {
            forall j | i < j < |es| ensures !EndsMount(es[j]) {
              if j < |init| {
                assert es[j] == init[j];
              }
            }
          }
        }
      } else {
        forall i | 0 <= i < |es| && es[i] == Mount
          ensures exists j :: i < j < |es| && EndsMount(es[j])
        {
          if i == |es| - 1 {
            assert false;
          } else if !EndsMount(last) {
            assert init[i] == Mount;
            var j :| i < j < |init| && EndsMount(init[j]);
            assert es[j] == init[j];
          }
        }
      }
    }
  }

  /** After a suspend, a resume brings the bus back but not the mount. */
  lemma SuspendResumeStaysUnmounted(l: Link, remoteWakeupEn: bool)
    ensures Run(l, [Suspend(remoteWakeupEn), Resume]) == Link(false, true)
  {
    assert [Suspend(remoteWakeupEn), Resume][..1] == [Suspend(remoteWakeupEn)];
    assert [Suspend(remoteWakeupEn)][..0] == [];
  }

  /** The globals of the debugger's USB module, the LED it drives and what
      it has written to the CDC port. */
  class UsbState {
    var reportsSent: nat
    var usbBusActive: bool
    var deviceMounted: bool
    var eventsProcessed: nat
    var led: bool
    var ledChanges: seq<bool>
    var cdcWritten: seq<string>

    function Flags(): Link
      reads this
    {
      Link(deviceMounted, usbBusActive)
    }

    ghost predicate Valid()
      reads this
    {
      Coherent(Flags()) && !led
    }

    /** The initial values of the globals, with the LED off as `usb_init`
        leaves it. */
    constructor ()
      ensures Valid()
      ensures Flags() == INITIAL && reportsSent == 0 && eventsProcessed == 0
      ensures ledChanges == [] && cdcWritten == []
    {
      reportsSent := 0;
      usbBusActive := false;
      deviceMounted := false;
      eventsProcessed := 0;
      led := false;
      ledChanges := [];
      cdcWritten := [];
    }

    /** `tud_mount_cb`. */
    method MountCb()
      requires Valid()
      modifies this`deviceMounted, this`usbBusActive
      ensures Valid() && Flags() == Apply(old(Flags()), Mount)
    {
      deviceMounted := true;
      usbBusActive := true;
    }

    /** `tud_umount_cb`. */
    method UmountCb()
      requires Valid()
      modifies this`deviceMounted
      ensures Valid() && Flags() == Apply(old(Flags()), Unmount)
    {
      deviceMounted := false;
    }

    /** `tud_suspend_cb`. */
    method SuspendCb(remoteWakeupEn: bool)
      requires Valid()
      modifies this`deviceMounted, this`usbBusActive
      ensures Valid() && Flags() == Apply(old(Flags()), Suspend(remoteWakeupEn))
    {
      deviceMounted := false;
      usbBusActive := false;
    }

    /** `tud_resume_cb`. */
    method ResumeCb()
      requires Valid()
      modifies this`usbBusActive
      ensures Valid() && Flags() == Apply(old(Flags()), Resume)
    {
      usbBusActive := true;
    }

    /** `cdc_send`: with a terminal connected, the LED goes on, the text is
        written and flushed, and the LED goes off again; otherwise nothing
        is written and the LED is not touched. */
    method CdcSend(connected: bool, buf: string)
      requires Valid()
      modifies this`led, this`ledChanges, this`cdcWritten
      ensures Valid()
      ensures connected ==> cdcWritten == old(cdcWritten) + [buf] &&
                            ledChanges == old(ledChanges) + [true, false]
      ensures !connected ==> cdcWritten == old(cdcWritten) && ledChanges == old(ledChanges)
    {
      if connected {
        led := true;
        ledChanges := ledChanges + [true];
        cdcWritten := cdcWritten + [buf];
        led := false;
        ledChanges := ledChanges + [false];
      }
    }
  }
}
