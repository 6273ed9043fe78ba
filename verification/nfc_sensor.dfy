/** Sensors/NfcSensor.cs: the listener registry, the acceptance test for NFC
    intents, and the tag-switch logic that tells listeners a viewer was
    inserted or removed. The adapter, intents, NDEF I/O and timers are
    represented by the values the sensor reads from them; handler posting is
    represented by the ordered list of listener callbacks. */
module Nfc {
  import opened Common
  import Device

  const NFC_DATA_SCHEME: string := "cardboard"
  const FIRST_TAG_VERSION: string := "v1.0.0"
  const ACTION_NDEF_DISCOVERED: string := "android.nfc.action.NDEF_DISCOVERED"
  const MAX_CONNECTION_FAILURES: int := 1

  /** A listener, by reference identity. */
  type ListenerId = nat

  /** The tag carried by an intent: its id (`GetId()` may be null) and whether
      `Ndef.Get` finds NDEF technology on it. */
  datatype NfcTag = NfcTag(id: Option<seq<bv8>>, isNdef: bool)

  datatype Intent = Intent(action: string, data: Option<Device.Uri>, tag: Option<NfcTag>)

  /** The connected tag: its id and the message cached when it was read. */
  datatype CurrentTag = CurrentTag(id: Option<seq<bv8>>, contents: Option<Device.NdefMessage>)

  /** What connecting to a tag and reading its cached message gave. */
  datatype ReadOutcome = ReadFailed | ReadOk(contents: Option<Device.NdefMessage>)

  /** A callback posted to a listener. */
  datatype NfcEvent =
    | Inserted(listener: ListenerId, params: Option<Device.DeviceParams>)
    | Removed(listener: ListenerId)

  /** The sensor: the adapter (none when the device has no NFC; otherwise
      whether it is switched on), the listeners in registration order, the
      current tag, the failure counter and whether the disconnect timer runs. */
  datatype NfcSensor = NfcSensor(
    adapter: Option<bool>,
    listeners: seq<ListenerId>,
    currentTag: Option<CurrentTag>,
    tagConnectionFailures: int,
    timerScheduled: bool)

  /** `new NfcSensor(context)` (reached through `getInstance`). */
  function NewNfcSensor(adapter: Option<bool>): (s: NfcSensor)
    ensures s.adapter == adapter && s.listeners == [] && s.currentTag.None?
    ensures s.tagConnectionFailures == 0 && !s.timerScheduled
  {
    NfcSensor(adapter, [], None, 0, false)
  }

  predicate NoDuplicates(ls: seq<ListenerId>)
  {
    forall i, j :: 0 <= i < j < |ls| ==> ls[i] != ls[j]
  }

  /** `addOnCardboardNfcListener`: null and an already registered listener
      are ignored; otherwise the listener joins at the end. */
  function AddListener(s: NfcSensor, listener: Option<ListenerId>): (r: NfcSensor)
    ensures listener.None? ==> r == s
    ensures listener.Some? && listener.value in s.listeners ==> r == s
    ensures listener.Some? && listener.value !in s.listeners ==> r == s.(listeners := s.listeners + [listener.value])
  {
    match listener
    case None => s
    case Some(l) => if l in s.listeners then s else s.(listeners := s.listeners + [l])
  }

  /** The registry never holds a listener twice, and an added listener is
      registered afterwards. */
  lemma AddKeepsRegistryDuplicateFree(s: NfcSensor, listener: Option<ListenerId>)
    requires NoDuplicates(s.listeners)
    ensures NoDuplicates(AddListener(s, listener).listeners)
    ensures listener.Some? ==> listener.value in AddListener(s, listener).listeners
    ensures forall l :: l in s.listeners ==> l in AddListener(s, listener).listeners
  {
  }

  /** The first registration of `l` taken out of `ls`. */
  function RemoveFirst(ls: seq<ListenerId>, l: ListenerId): (r: seq<ListenerId>)
    ensures l !in ls ==> r == ls
    ensures l in ls ==> |r| == |ls| - 1
    ensures forall x :: x in r ==> x in ls
    decreases |ls|
  {
    if ls == [] then []
    else if ls[0] == l then ls[1..]
    else [ls[0]] + RemoveFirst(ls[1..], l)
  }

  /** Where `l` is first registered (the length when it is not). */
  function FirstIndex(ls: seq<ListenerId>, l: ListenerId): (k: nat)
    ensures k <= |ls| && (k < |ls| <==> l in ls)
    ensures k < |ls| ==> ls[k] == l
    ensures forall i :: 0 <= i < k ==> ls[i] != l
    decreases |ls|
  {
    if ls == [] then 0
    else if ls[0] == l then 0
    else 1 + FirstIndex(ls[1..], l)
  }

  /** Removal cuts the first registration out and keeps the rest in order. */
  lemma {:induction false} RemoveFirstCutsAtFirstIndex(ls: seq<ListenerId>, l: ListenerId)
    requires l in ls
    ensures RemoveFirst(ls, l) == ls[..FirstIndex(ls, l)] + ls[FirstIndex(ls, l) + 1..]
    decreases |ls|
  {
    if ls[0] != l {
      RemoveFirstCutsAtFirstIndex(ls[1..], l);
      var k := FirstIndex(ls[1..], l);
      assert ls[1..][..k] + ls[1..][k + 1..] == ls[1..k + 1] + ls[k + 2..];
      assert [ls[0]] + ls[1..k + 1] == ls[..k + 1];
    }
  }

  /** After removal, the entries before the first registration stay where
      they were and the ones after it move down by one. */
  lemma RemoveFirstShifts(ls: seq<ListenerId>, l: ListenerId, i: int)
    requires l in ls && 0 <= i < |ls| - 1
    ensures RemoveFirst(ls, l)[i] == if i < FirstIndex(ls, l) then ls[i] else ls[i + 1]
  {
    RemoveFirstCutsAtFirstIndex(ls, l);
  }

  /** Removing from a duplicate-free registry unregisters the listener, keeps
      every other one, and leaves the registry duplicate-free. */
  lemma RemoveFirstKeepsOthers(ls: seq<ListenerId>, l: ListenerId)
    requires NoDuplicates(ls)
    ensures l !in RemoveFirst(ls, l)
    ensures NoDuplicates(RemoveFirst(ls, l))
    ensures forall x :: x != l ==> (x in RemoveFirst(ls, l) <==> x in ls)
  {
    if l in ls {
      var k := FirstIndex(ls, l);
      var r := RemoveFirst(ls, l);
      forall i | 0 <= i < |r|
        ensures r[i] != l
      {
        RemoveFirstShifts(ls, l, i);
      }
      forall i, j | 0 <= i < j < |r|
        ensures r[i] != r[j]
      {
        RemoveFirstShifts(ls, l, i);
        RemoveFirstShifts(ls, l, j);
      }
      forall x | x in ls && x != l
        ensures x in r
      {
        var i :| 0 <= i < |ls| && ls[i] == x;
        if i < k {
          RemoveFirstShifts(ls, l, i);
        } else {
          RemoveFirstShifts(ls, l, i - 1);
        }
      }
    }
  }

  /** `removeOnCardboardNfcListener`: null is ignored; otherwise the matching
      registration, if any, is removed. */
  function RemoveListener(s: NfcSensor, listener: Option<ListenerId>): (r: NfcSensor)
    ensures listener.None? ==> r == s
    ensures listener.Some? && listener.value !in s.listeners ==> r == s
    ensures r.(listeners := s.listeners) == s
  {
    match listener
    case None => s
    case Some(l) => s.(listeners := RemoveFirst(s.listeners, l))
  }

  /** `isNfcSupported`: an adapter exists. */
  predicate IsNfcSupported(s: NfcSensor) { s.adapter.Some? }

  /** `isNfcEnabled`: an adapter exists and is switched on. */
  predicate IsNfcEnabled(s: NfcSensor) { IsNfcSupported(s) && s.adapter.value }

  /** `isDeviceInCardboard`: a tag is current. */
  predicate IsDeviceInCardboard(s: NfcSensor) { s.currentTag.Some? }

  lemma EnabledImpliesSupported(s: NfcSensor)
    ensures IsNfcEnabled(s) ==> IsNfcSupported(s)
    ensures IsNfcEnabled(s) <==> s.adapter == Some(true)
  {
  }

  /** `getCardboardDeviceParams`: null without a current tag (the null access
      is caught) or without a cached message; otherwise the parameters parsed
      from the message. */
  function GetCardboardDeviceParams(s: NfcSensor): (r: Option<Device.DeviceParams>)
    ensures !IsDeviceInCardboard(s) ==> r.None?
    ensures r.Some? <==> IsDeviceInCardboard(s) && s.currentTag.value.contents.Some?
    ensures r.Some? ==> Some(r.value) == Device.CreateFromNfcContents(s.currentTag.value.contents)
  {
    match s.currentTag
    case None => None
    case Some(t) => Device.CreateFromNfcContents(t.contents)
  }

  /** The URI test of `onNfcIntent` as written: it turns away a URI whose host
      is not the first tag version when the path has exactly two segments. */
  predicate AcceptsUriAsWritten(uri: Device.Uri)
  {
    uri.scheme == NFC_DATA_SCHEME && !(uri.host != FIRST_TAG_VERSION && |uri.pathSegments| == 2)
  }

  /** The written test rejects the vendor/model/version URIs the parser reads,
      and lets through URIs the parser cannot read. */
  lemma AsWrittenUriTestIsInverted()
    ensures var vendorUri := Device.Uri("cardboard", "google.com", ["cardboard", "v1"]);
      !AcceptsUriAsWritten(vendorUri) && Device.Parsable(Device.NdefRecord(Some(vendorUri)))
    ensures var bare := Device.Uri("cardboard", "google.com", []);
      AcceptsUriAsWritten(bare) && !Device.Parsable(Device.NdefRecord(Some(bare)))
  {
  }

  /** The URI test with the path-count comparison turned the way the parser
      reads it: a cardboard URI naming the first tag version or a
      vendor/model/version path. */
  predicate AcceptsUri(uri: Device.Uri)
  {
    uri.scheme == NFC_DATA_SCHEME && (uri.host == FIRST_TAG_VERSION || |uri.pathSegments| == 2)
  }

  /** The corrected test accepts exactly the cardboard URIs that
      `parseNfcUri` accepts. */
  lemma AcceptedUrisAreParsable(uri: Device.Uri)
    ensures AcceptsUri(uri) <==> uri.scheme == NFC_DATA_SCHEME && Device.Parsable(Device.NdefRecord(Some(uri)))
  {
  }

  /** The filter ahead of the tag logic: NFC on, an NDEF-discovered intent with
      a URI and an NDEF tag, and a URI the written test lets through. */
  predicate AcceptsIntent(s: NfcSensor, intent: Option<Intent>)
  {
    IsNfcEnabled(s) && intent.Some? && intent.value.action == ACTION_NDEF_DISCOVERED
    && intent.value.data.Some? && intent.value.tag.Some?
    && intent.value.tag.value.isNdef && AcceptsUriAsWritten(intent.value.data.value)
  }

  /** Two tags are the same when both ids are present and equal by content. */
  predicate SameTag(a: Option<seq<bv8>>, b: Option<seq<bv8>>)
  {
    a.Some? && b.Some? && a.value == b.value
  }

  /** One callback per registered listener, in registration order. */
  function RemovedAll(ls: seq<ListenerId>): (r: seq<NfcEvent>)
    ensures |r| == |ls| && forall i :: 0 <= i < |ls| ==> r[i] == Removed(ls[i])
  {
    seq(|ls|, i requires 0 <= i < |ls| => Removed(ls[i]))
  }

  function InsertedAll(ls: seq<ListenerId>, p: Option<Device.DeviceParams>): (r: seq<NfcEvent>)
    ensures |r| == |ls| && forall i :: 0 <= i < |ls| ==> r[i] == Inserted(ls[i], p)
  {
    seq(|ls|, i requires 0 <= i < |ls| => Inserted(ls[i], p))
  }

  datatype IntentStep = IntentStep(sensor: NfcSensor, events: seq<NfcEvent>)

  /** `closeCurrentNfcTag`: cancels the timer and forgets the tag. */
  function CloseCurrentTag(s: NfcSensor): (r: NfcSensor)
    ensures r.currentTag.None? && !r.timerScheduled
    ensures r.listeners == s.listeners && r.adapter == s.adapter
  {
    s.(currentTag := None, timerScheduled := false)
  }

  /** `onNfcIntent(intent)`, with `read` the outcome of connecting to the
      intent's tag and reading its cached message. A rejected intent changes
      nothing. Otherwise the old tag, if any, is closed and, unless it is the
      same tag, every listener hears "removed"; a failed read leaves no tag and
      tells the listeners "removed" if it was the same tag; a good read makes
      the new tag current, tells every listener "inserted" with the parsed
      parameters unless it is the same tag, and starts the disconnect timer. */
  function OnNfcIntent(s: NfcSensor, intent: Option<Intent>, read: ReadOutcome): (r: IntentStep)
    ensures !AcceptsIntent(s, intent) ==> r == IntentStep(s, [])
    ensures r.sensor.listeners == s.listeners && r.sensor.adapter == s.adapter
  {
    if !AcceptsIntent(s, intent) then IntentStep(s, [])
    else
      var tag := intent.value.tag.value;
      var isSameTag := s.currentTag.Some? && SameTag(tag.id, s.currentTag.value.id);
      var closed := if s.currentTag.Some? then CloseCurrentTag(s) else s;
      var removed := if s.currentTag.Some? && !isSameTag then RemovedAll(s.listeners) else [];
      match read
      case ReadFailed =>
        IntentStep(closed, removed + (if isSameTag then RemovedAll(s.listeners) else []))
      case ReadOk(contents) =>
        var inserted := if !isSameTag then InsertedAll(s.listeners, Device.CreateFromNfcContents(contents)) else [];
        IntentStep(closed.(currentTag := Some(CurrentTag(tag.id, contents)), tagConnectionFailures := 0, timerScheduled := true),
                   removed + inserted)
  }

  /** A failed read leaves no tag current, and the listeners hear "removed"
      exactly once each iff a tag was current before. */
  lemma ReadFailureReportsRemoval(s: NfcSensor, intent: Option<Intent>)
    requires AcceptsIntent(s, intent)
    ensures var r := OnNfcIntent(s, intent, ReadFailed);
      && !IsDeviceInCardboard(r.sensor)
      && r.events == (if IsDeviceInCardboard(s) then RemovedAll(s.listeners) else [])
  {
  }

  /** A good read makes the intent's tag current and resets the failure count.
      Re-reading the same tag tells nobody anything; a different tag, or a
      first tag, tells every listener "removed" (if some tag was current) and
      then "inserted" with the tag's parameters. */
  lemma GoodReadSwitchesTag(s: NfcSensor, intent: Option<Intent>, contents: Option<Device.NdefMessage>)
    requires AcceptsIntent(s, intent)
    ensures var r := OnNfcIntent(s, intent, ReadOk(contents));
      var tag := intent.value.tag.value;
      var same := IsDeviceInCardboard(s) && SameTag(tag.id, s.currentTag.value.id);
      && r.sensor.currentTag == Some(CurrentTag(tag.id, contents))
      && r.sensor.tagConnectionFailures == 0 && r.sensor.timerScheduled
      && (same ==> r.events == [])
      && (!same ==> r.events == (if IsDeviceInCardboard(s) then RemovedAll(s.listeners) else [])
                                + InsertedAll(s.listeners, Device.CreateFromNfcContents(contents)))
  {
  }

  /** A tag without an id never counts as the same tag, even when it is. */
  lemma NullIdsAreDifferentTags(id: Option<seq<bv8>>)
    ensures !SameTag(None, id) && !SameTag(id, None)
  {
  }

  /** The disconnect timer's tick: with the tag disconnected and more than
      `MAX_CONNECTION_FAILURES` failures counted, the tag is closed and every
      listener hears "removed"; otherwise nothing happens. A cancelled timer
      does not tick. */
  function TimerTick(s: NfcSensor, tagConnected: bool): (r: IntentStep)
    ensures !s.timerScheduled || tagConnected || s.tagConnectionFailures <= MAX_CONNECTION_FAILURES ==> r == IntentStep(s, [])
    ensures r.sensor.listeners == s.listeners
  {
    if s.timerScheduled && !tagConnected && s.tagConnectionFailures > MAX_CONNECTION_FAILURES then
      IntentStep(CloseCurrentTag(s), RemovedAll(s.listeners))
    else IntentStep(s, [])
  }

  /** Nothing ever increments the failure counter: a sensor that starts at 0
      stays at 0 through every intent and tick, so the timer never disconnects
      the tag. */
  lemma FailureCounterStaysZero(s: NfcSensor, intent: Option<Intent>, read: ReadOutcome, tagConnected: bool)
    requires s.tagConnectionFailures == 0
    ensures OnNfcIntent(s, intent, read).sensor.tagConnectionFailures == 0
    ensures TimerTick(s, tagConnected) == IntentStep(s, [])
  {
  }
}
