/** CardboardActivity.cs: the activity that owns the view, the magnet trigger
    and the NFC sensor, decides what the volume keys do, and passes the
    viewer's parameters read from NFC to the view. Window flags, the
    fullscreen timer and the base class's key handling are Android plumbing
    and are not modelled; a key the activity does not consume is reported as
    passed on. */
module Activity {
  import opened Common
  import Device
  import Nfc
  import Magnet
  import CardboardViews

  /** `VolumeKeys` constants. */
  const NOT_DISABLED: int := 0
  const DISABLED: int := 1
  const DISABLED_WHILE_IN_CARDBOARD: int := 2

  datatype Key = VolumeUp | VolumeDown | OtherKey

  predicate IsVolumeKey(k: Key) { k == VolumeUp || k == VolumeDown }

  /** The activity: its registration in the NFC sensor's listener list, the
      cardboard view if one was set, the magnet's trigger detector, the NFC
      sensor and the volume keys mode. */
  datatype CardboardActivity = CardboardActivity(
    id: Nfc.ListenerId,
    view: Option<CardboardViews.View>,
    magnet: Magnet.Detector,
    nfc: Nfc.NfcSensor,
    volumeKeysMode: int)

  /** `SetVolumeKeysMode`: any int is stored. */
  function SetVolumeKeysMode(a: CardboardActivity, mode: int): (r: CardboardActivity)
    ensures r.volumeKeysMode == mode
    ensures r.(volumeKeysMode := a.volumeKeysMode) == a
  {
    a.(volumeKeysMode := mode)
  }

  function GetVolumeKeysMode(a: CardboardActivity): int
  {
    a.volumeKeysMode
  }

  /** The mode read back is the mode last set. */
  lemma VolumeKeysModeRoundTrip(a: CardboardActivity, mode: int, other: int)
    ensures GetVolumeKeysMode(SetVolumeKeysMode(a, mode)) == mode
    ensures SetVolumeKeysMode(SetVolumeKeysMode(a, other), mode) == SetVolumeKeysMode(a, mode)
  {
  }

  /** `IsDeviceInCardboard`: asks the NFC sensor. */
  predicate IsDeviceInCardboard(a: CardboardActivity)
  {
    Nfc.IsDeviceInCardboard(a.nfc)
  }

  /** `AreVolumeKeysDisabled`: never, always, or while a viewer's tag is
      current; any other mode is an illegal state. */
  function AreVolumeKeysDisabled(a: CardboardActivity): (r: Result<bool>)
    ensures r.Err? <==> a.volumeKeysMode !in {NOT_DISABLED, DISABLED, DISABLED_WHILE_IN_CARDBOARD}
    ensures r.Err? ==> r.error == IllegalState
  {
    if a.volumeKeysMode == NOT_DISABLED then Ok(false)
    else if a.volumeKeysMode == DISABLED_WHILE_IN_CARDBOARD then Ok(IsDeviceInCardboard(a))
    else if a.volumeKeysMode == DISABLED then Ok(true)
    else Err(IllegalState)
  }

  /** The decision table: the keys are off in mode DISABLED, on in mode
      NOT_DISABLED, and in mode DISABLED_WHILE_IN_CARDBOARD off exactly while
      the phone is in a viewer. */
  lemma VolumeKeysDecisionTable(a: CardboardActivity)
    ensures a.volumeKeysMode == NOT_DISABLED ==> AreVolumeKeysDisabled(a) == Ok(false)
    ensures a.volumeKeysMode == DISABLED ==> AreVolumeKeysDisabled(a) == Ok(true)
    ensures a.volumeKeysMode == DISABLED_WHILE_IN_CARDBOARD ==>
      (AreVolumeKeysDisabled(a) == Ok(true) <==> a.nfc.currentTag.Some?)
  {
  }

  datatype KeyOutcome = Consumed | PassedOn

  /** A key press handled: the activity after it, what became of the key, and
      whether a trigger was posted to the magnet's listener. */
  datatype KeyDown = KeyDown(activity: CardboardActivity, outcome: KeyOutcome, triggered: bool)

  /** `OnKeyDown`: a volume key fires the magnet's fake trigger and is
      consumed; its later mode-dependent test is never reached. Other keys go
      to the base class. */
  function OnKeyDown(a: CardboardActivity, k: Key): (r: KeyDown)
    ensures IsVolumeKey(k) ==> r.outcome == Consumed && r.activity == a.(magnet := Magnet.HandleButtonPressed(a.magnet).detector)
    ensures !IsVolumeKey(k) ==> r == KeyDown(a, PassedOn, false)
  {
    if IsVolumeKey(k) then
      var step := Magnet.HandleButtonPressed(a.magnet);
      KeyDown(a.(magnet := step.detector), Consumed, step.triggered)
    else KeyDown(a, PassedOn, false)
  }

  /** Pressing a volume key acts as a pull of the magnet whatever the volume
      keys mode, even an invalid one: the trigger window empties and the
      listener, if any, is told. */
  lemma VolumeKeyDownAlwaysTriggers(a: CardboardActivity, k: Key, mode: int)
    requires IsVolumeKey(k)
    ensures var r := OnKeyDown(SetVolumeKeysMode(a, mode), k);
      && r.outcome == Consumed && r.activity.magnet.window == []
      && (r.triggered <==> a.magnet.hasListener)
  {
  }

  /** `OnKeyUp`: a volume key is consumed exactly when the volume keys are
      disabled (an invalid mode throws); other keys go to the base class
      without the mode being consulted. */
  function OnKeyUp(a: CardboardActivity, k: Key): (r: Result<KeyOutcome>)
    ensures r == Ok(Consumed) <==> IsVolumeKey(k) && AreVolumeKeysDisabled(a) == Ok(true)
    ensures r.Err? <==> IsVolumeKey(k) && AreVolumeKeysDisabled(a).Err?
  {
    if !IsVolumeKey(k) then Ok(PassedOn)
    else
      match AreVolumeKeysDisabled(a)
      case Err(e) => Err(e)
      case Ok(disabled) => Ok(if disabled then Consumed else PassedOn)
  }

  /** `OnCreate`: a new magnet sensor with the activity as its trigger
      listener, the activity registered with the NFC sensor, the launching
      intent handled, and the volume keys disabled while in a viewer. The
      events are what the NFC sensor posts to its listeners. */
  datatype Created = Created(activity: CardboardActivity, events: seq<Nfc.NfcEvent>)

  function OnCreate(id: Nfc.ListenerId, nfc: Nfc.NfcSensor, intent: Option<Nfc.Intent>, read: Nfc.ReadOutcome): (r: Created)
    ensures r.activity.volumeKeysMode == DISABLED_WHILE_IN_CARDBOARD
    ensures r.activity.view.None? && r.activity.id == id
    ensures r.activity.magnet == Magnet.Detector([], true)
    ensures id in r.activity.nfc.listeners
    ensures r.activity.nfc.listeners == Nfc.AddListener(nfc, Some(id)).listeners
  {
    var registered := Nfc.AddListener(nfc, Some(id));
    var step := Nfc.OnNfcIntent(registered, intent, read);
    Created(CardboardActivity(id, None, Magnet.SetListener(Magnet.NewDetector, true), step.sensor, DISABLED_WHILE_IN_CARDBOARD), step.events)
  }

  /** `OnDestroy`: the activity leaves the NFC sensor's listeners. */
  function OnDestroy(a: CardboardActivity): (r: CardboardActivity)
    ensures r.nfc == Nfc.RemoveListener(a.nfc, Some(a.id))
    ensures r.(nfc := a.nfc) == a
  {
    a.(nfc := Nfc.RemoveListener(a.nfc, Some(a.id)))
  }

  /** After `OnDestroy` the sensor no longer calls the activity, and every
      other listener stays registered. */
  lemma DestroyedActivityHearsNothing(a: CardboardActivity)
    requires Nfc.NoDuplicates(a.nfc.listeners)
    ensures a.id !in OnDestroy(a).nfc.listeners
    ensures forall l :: l != a.id ==> (l in OnDestroy(a).nfc.listeners <==> l in a.nfc.listeners)
  {
    Nfc.RemoveFirstKeepsOthers(a.nfc.listeners, a.id);
  }

  /** The parameters a newly set view is given: those of the current tag, or
      the defaults. */
  function InitialParams(a: CardboardActivity): (p: Device.DeviceParams)
    ensures Nfc.GetCardboardDeviceParams(a.nfc).Some? ==> p == Nfc.GetCardboardDeviceParams(a.nfc).value
    ensures Nfc.GetCardboardDeviceParams(a.nfc).None? ==> p == Device.NewDeviceParams()
  {
    match Nfc.GetCardboardDeviceParams(a.nfc)
    case Some(p) => p
    case None => Device.NewDeviceParams()
  }

  /** `SetCardboardView(view)`: the view is remembered and, if not null, given
      the viewer's parameters. */
  function SetCardboardView(a: CardboardActivity, view: Option<CardboardViews.View>): (r: CardboardActivity)
    ensures r.view.None? <==> view.None?
    ensures view.Some? ==> r.view.value == CardboardViews.UpdateCardboardDeviceParams(view.value, Some(InitialParams(a)))
    ensures r.(view := a.view) == a
  {
    match view
    case None => a.(view := None)
    case Some(v) => a.(view := Some(CardboardViews.UpdateCardboardDeviceParams(v, Some(InitialParams(a)))))
  }

  /** After `SetCardboardView` the view's viewer parameters are `equals` to
      the tag's parameters, or to the defaults when no tag gives any. */
  lemma SetViewPushesParams(a: CardboardActivity, v: CardboardViews.View)
    ensures var r := SetCardboardView(a, Some(v));
      Device.Equals(InitialParams(a), Instance(r.view.value.settings.hmd.cardboard))
  {
    var p := InitialParams(a);
    Device.EqualsIgnoresOnlyTagContents(p, p);
  }

  /** What `SetContentView` is given. */
  datatype ContentView = CardboardContent(view: CardboardViews.View) | OtherContent

  /** `SetContentView(view)`: a cardboard view goes through `SetCardboardView`;
      any other view leaves the activity as it was (the base class shows it). */
  function SetContentView(a: CardboardActivity, content: ContentView): (r: CardboardActivity)
    ensures content.CardboardContent? ==> r == SetCardboardView(a, Some(content.view))
    ensures content.OtherContent? ==> r == a
  {
    match content
    case CardboardContent(v) => SetCardboardView(a, Some(v))
    case OtherContent => a
  }

  /** `OnInsertedIntoCardboard(params)`: forwarded to the view, if any. */
  function OnInsertedIntoCardboard(a: CardboardActivity, p: Option<Device.DeviceParams>): (r: CardboardActivity)
    ensures a.view.None? ==> r == a
    ensures a.view.Some? ==> r == a.(view := Some(CardboardViews.UpdateCardboardDeviceParams(a.view.value, p)))
  {
    match a.view
    case None => a
    case Some(v) => a.(view := Some(CardboardViews.UpdateCardboardDeviceParams(v, p)))
  }

  /** An NFC callback delivered to the activity: "inserted" updates the view,
      "removed" does nothing, and callbacks for other listeners are not the
      activity's. */
  function Deliver(a: CardboardActivity, e: Nfc.NfcEvent): (r: CardboardActivity)
    ensures e.listener != a.id || e.Removed? ==> r == a
  {
    match e
    case Inserted(l, p) => if l == a.id then OnInsertedIntoCardboard(a, p) else a
    case Removed(_) => a
  }

  /** `OnResume` and `OnPause` reach the view, if any. */
  function OnResume(a: CardboardActivity): (r: CardboardActivity)
    ensures r.view.None? <==> a.view.None?
    ensures a.view.Some? ==> r.view.value == CardboardViews.OnResume(a.view.value)
    ensures r.(view := a.view) == a
  {
    match a.view
    case None => a
    case Some(v) => a.(view := Some(CardboardViews.OnResume(v)))
  }

  function OnPause(a: CardboardActivity): (r: CardboardActivity)
    ensures r.view.None? <==> a.view.None?
    ensures a.view.Some? ==> r.view.value == CardboardViews.OnPause(a.view.value)
    ensures r.(view := a.view) == a
  {
    match a.view
    case None => a
    case Some(v) => a.(view := Some(CardboardViews.OnPause(v)))
  }
}
