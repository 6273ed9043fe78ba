/** CardboardDeviceParams.cs: the viewer's optics and identity, and the parser
    that reads them from a Cardboard NFC tag. */
module Device {
  import opened Common

  const DEFAULT_VENDOR: string := "com.google"
  const DEFAULT_MODEL: string := "cardboard"
  const DEFAULT_VERSION: string := "1.0"
  const DEFAULT_INTERPUPILLARY_DISTANCE: real := 0.06
  const DEFAULT_VERTICAL_DISTANCE_TO_LENS_CENTER: real := 0.035
  const DEFAULT_LENS_DIAMETER: real := 0.025
  const DEFAULT_SCREEN_TO_LENS_DISTANCE: real := 0.037
  const DEFAULT_EYE_TO_LENS_DISTANCE: real := 0.011
  const DEFAULT_VISIBLE_VIEWPORT_MAX_SIZE: real := 0.06
  const DEFAULT_FOV_Y: real := 65.0

  /** The first tag version: a URI with this host names the default viewer. */
  const FIRST_TAG_VERSION: string := "v1.0.0"

  /** The parts of an Android `Uri` the toolkit reads. */
  datatype Uri = Uri(scheme: string, host: string, pathSegments: seq<string>)

  /** An NDEF record, reduced to what `ToUri()` returns (null when the record
      holds no URI). */
  datatype NdefRecord = NdefRecord(uri: Option<Uri>)

  datatype NdefMessage = NdefMessage(records: seq<NdefRecord>)

  datatype DeviceParams = DeviceParams(
    nfcTagContents: Option<NdefMessage>,
    vendor: string, model: string, version: string,
    interpupillaryDistance: real,
    verticalDistanceToLensCenter: real,
    lensDiameter: real,
    screenToLensDistance: real,
    eyeToLensDistance: real,
    visibleViewportSize: real,
    fovY: real,
    distortion: Distortion)

  /** `new CardboardDeviceParams()`. */
  function NewDeviceParams(): (p: DeviceParams)
    ensures p.nfcTagContents == None
    ensures p.vendor == "com.google" && p.model == "cardboard" && p.version == "1.0"
    ensures p.interpupillaryDistance == 0.06 && p.verticalDistanceToLensCenter == 0.035
    ensures p.lensDiameter == 0.025 && p.screenToLensDistance == 0.037
    ensures p.eyeToLensDistance == 0.011 && p.visibleViewportSize == 0.06
    ensures p.fovY == 65.0 && p.distortion == DefaultLens
  {
    DeviceParams(None, DEFAULT_VENDOR, DEFAULT_MODEL, DEFAULT_VERSION,
      DEFAULT_INTERPUPILLARY_DISTANCE, DEFAULT_VERTICAL_DISTANCE_TO_LENS_CENTER,
      DEFAULT_LENS_DIAMETER, DEFAULT_SCREEN_TO_LENS_DISTANCE, DEFAULT_EYE_TO_LENS_DISTANCE,
      DEFAULT_VISIBLE_VIEWPORT_MAX_SIZE, DEFAULT_FOV_Y, DefaultLens)
  }

  /** `equals(Object)`: false for null and other classes, true for the receiver
      itself, otherwise the three strings, the seven numbers and the lens
      compared. The cached tag contents take no part. */
  function Equals(p: DeviceParams, other: ObjectArg<DeviceParams>): bool
  {
    match other
    case Null => false
    case SameInstance => true
    case OtherType => false
    case Instance(o) =>
      && p.vendor == o.vendor && p.model == o.model && p.version == o.version
      && p.interpupillaryDistance == o.interpupillaryDistance
      && p.verticalDistanceToLensCenter == o.verticalDistanceToLensCenter
      && p.lensDiameter == o.lensDiameter
      && p.screenToLensDistance == o.screenToLensDistance
      && p.eyeToLensDistance == o.eyeToLensDistance
      && p.visibleViewportSize == o.visibleViewportSize
      && p.fovY == o.fovY
      && p.distortion == o.distortion
  }

  /** `equals` on another instance is value equality up to the cached tag
      contents, which it ignores. */
  lemma EqualsIgnoresOnlyTagContents(p: DeviceParams, o: DeviceParams)
    ensures Equals(p, Instance(o)) <==> p.(nfcTagContents := o.nfcTagContents) == o
  {
  }

  /** `new CardboardDeviceParams(params)`: copies every field (the lens through
      its own copy constructor, taken to yield an equal lens). */
  function Copy(p: DeviceParams): (r: DeviceParams)
    ensures r == p
    ensures Equals(p, Instance(r)) && Equals(r, Instance(p))
  {
    DeviceParams(p.nfcTagContents, p.vendor, p.model, p.version,
      p.interpupillaryDistance, p.verticalDistanceToLensCenter, p.lensDiameter,
      p.screenToLensDistance, p.eyeToLensDistance, p.visibleViewportSize, p.fovY,
      p.distortion)
  }

  // Setters: each changes its own field and nothing else (restoring that field
  // gives back the original).

  function SetVendor(p: DeviceParams, vendor: string): (r: DeviceParams)
    ensures r.vendor == vendor && r.(vendor := p.vendor) == p
  { p.(vendor := vendor) }

  function SetModel(p: DeviceParams, model: string): (r: DeviceParams)
    ensures r.model == model && r.(model := p.model) == p
  { p.(model := model) }

  function SetVersion(p: DeviceParams, version: string): (r: DeviceParams)
    ensures r.version == version && r.(version := p.version) == p
  { p.(version := version) }

  function SetInterpupillaryDistance(p: DeviceParams, d: real): (r: DeviceParams)
    ensures r.interpupillaryDistance == d && r.(interpupillaryDistance := p.interpupillaryDistance) == p
  { p.(interpupillaryDistance := d) }

  function SetVerticalDistanceToLensCenter(p: DeviceParams, d: real): (r: DeviceParams)
    ensures r.verticalDistanceToLensCenter == d && r.(verticalDistanceToLensCenter := p.verticalDistanceToLensCenter) == p
  { p.(verticalDistanceToLensCenter := d) }

  function SetVisibleViewportSize(p: DeviceParams, size: real): (r: DeviceParams)
    ensures r.visibleViewportSize == size && r.(visibleViewportSize := p.visibleViewportSize) == p
  { p.(visibleViewportSize := size) }

  function SetFovY(p: DeviceParams, fovY: real): (r: DeviceParams)
    ensures r.fovY == fovY && r.(fovY := p.fovY) == p
  { p.(fovY := fovY) }

  function SetLensDiameter(p: DeviceParams, d: real): (r: DeviceParams)
    ensures r.lensDiameter == d && r.(lensDiameter := p.lensDiameter) == p
  { p.(lensDiameter := d) }

  function SetScreenToLensDistance(p: DeviceParams, d: real): (r: DeviceParams)
    ensures r.screenToLensDistance == d && r.(screenToLensDistance := p.screenToLensDistance) == p
  { p.(screenToLensDistance := d) }

  function SetEyeToLensDistance(p: DeviceParams, d: real): (r: DeviceParams)
    ensures r.eyeToLensDistance == d && r.(eyeToLensDistance := p.eyeToLensDistance) == p
  { p.(eyeToLensDistance := d) }

  /** The outcome of `parseNfcUri`: whether it returned true, and the
      parameters afterwards. */
  datatype ParseResult = ParseResult(parsed: bool, params: DeviceParams)

  /** A record `parseNfcUri` accepts: a URI whose host is the first tag version
      or whose path has exactly two segments. */
  predicate Parsable(record: NdefRecord)
  {
    record.uri.Some? && (record.uri.value.host == FIRST_TAG_VERSION || |record.uri.value.pathSegments| == 2)
  }

  /** `parseNfcUri(record)`. */
  function ParseNfcUri(p: DeviceParams, record: NdefRecord): (r: ParseResult)
    ensures r.parsed <==> Parsable(record)
    ensures !r.parsed ==> r.params == p
    ensures r.parsed && record.uri.value.host == FIRST_TAG_VERSION ==>
      r.params == p.(vendor := DEFAULT_VENDOR, model := DEFAULT_MODEL, version := DEFAULT_VERSION)
    ensures r.parsed && record.uri.value.host != FIRST_TAG_VERSION ==>
      r.params == p.(vendor := record.uri.value.host,
                     model := record.uri.value.pathSegments[0],
                     version := record.uri.value.pathSegments[1])
  {
    match record.uri
    case None => ParseResult(false, p)
    case Some(uri) =>
      if uri.host == FIRST_TAG_VERSION then
        ParseResult(true, p.(vendor := DEFAULT_VENDOR, model := DEFAULT_MODEL, version := DEFAULT_VERSION))
      else if |uri.pathSegments| != 2 then ParseResult(false, p)
      else ParseResult(true, p.(vendor := uri.host, model := uri.pathSegments[0], version := uri.pathSegments[1]))
  }

  /** True when `i` is the first record that parses. */
  ghost predicate FirstParsable(records: seq<NdefRecord>, i: int)
  {
    0 <= i < |records| && Parsable(records[i]) && forall j :: 0 <= j < i ==> !Parsable(records[j])
  }

  /** The `foreach ... if (parseNfcUri(record)) break;` loop: records that do
      not parse leave the parameters alone, and the first one that parses
      decides them. */
  function ParseRecords(p: DeviceParams, records: seq<NdefRecord>): (r: DeviceParams)
    ensures (forall i :: 0 <= i < |records| ==> !Parsable(records[i])) ==> r == p
    ensures forall i :: FirstParsable(records, i) ==> r == ParseNfcUri(p, records[i]).params
    ensures r.nfcTagContents == p.nfcTagContents
    decreases |records|
  {
    if records == [] then p
    else
      var step := ParseNfcUri(p, records[0]);
      if step.parsed then step.params
      else
        var r := ParseRecords(step.params, records[1..]);
        assert forall i :: FirstParsable(records, i) ==> i > 0 && FirstParsable(records[1..], i - 1);
        r
  }

  /** `createFromNfcContents(tagContents)`: null for a null message; otherwise a
      default instance updated by the first record that parses. The cached tag
      contents of the result stay null. */
  function CreateFromNfcContents(tagContents: Option<NdefMessage>): (r: Option<DeviceParams>)
    ensures tagContents.None? <==> r.None?
    ensures r.Some? ==> r.value.nfcTagContents.None?
    ensures r.Some? && (forall i :: 0 <= i < |tagContents.value.records| ==> !Parsable(tagContents.value.records[i])) ==>
      r.value == NewDeviceParams()
    ensures r.Some? ==> forall i :: FirstParsable(tagContents.value.records, i) ==>
      r.value == ParseNfcUri(NewDeviceParams(), tagContents.value.records[i]).params
  {
    match tagContents
    case None => None
    case Some(m) =>
      var d := NewDeviceParams();
      Some(ParseRecords(d, m.records))
  }
}
