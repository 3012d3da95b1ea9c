/**
 * The DPD shipment builder: an object that accumulates one order message
 * (print options, general shipment data with sender and recipient, a parcel
 * list, product and service flags), validates what callers add to it,
 * submits it, and turns the returned parcel label numbers into airway bills
 * with tracking links.
 *
 * The remote `storeOrders` call is not modelled: `Submit` receives its
 * outcome as a `StoreOrdersReply`. The framework configuration (`dpd.*`)
 * and the e-mail validator are fixed when the builder is created.
 */
module DpdShipment {
  import opened Wrappers
  import opened PhpStrings
  import opened PhpValues
  import opened DpdAuthorisation

  newtype byte = x: int | 0 <= x < 256

  const TEST_SHIP_WSDL: string := "https://shipperadmintest.dpd.nl/PublicAPI/WSDL/ShipmentServiceV33.wsdl"
  const SHIP_WSDL: string := "https://wsshipper.dpd.nl/soap/WSDL/ShipmentServiceV33.wsdl"
  /**
   * The tracking link template of the source, "https://tracking.dpd.de/parcelstatus?locale=:lang&query=:awb",
   * assembled from its pieces: the scheme, its separator, the path up to the
   * `:lang` placeholder, and the query part before the `:awb` placeholder.
   */
  const TRACKING_SCHEME: string := "https"
  const SCHEME_SEPARATOR: string := "://"
  const TRACKING_PATH: string := "tracking.dpd.de/parcelstatus?locale="
  const LANG_KEY: string := ":lang"
  const QUERY_PART: string := "&query="
  const AWB_KEY: string := ":awb"
  /** The part of TRACKING_URL before the `:lang` placeholder. */
  const TRACKING_PREFIX: string := TRACKING_SCHEME + SCHEME_SEPARATOR + TRACKING_PATH
  const TRACKING_URL: string := TRACKING_PREFIX + LANG_KEY + QUERY_PART + AWB_KEY

  /** Destinations for which the Predict notification service may be booked. */
  const PREDICT_COUNTRIES: seq<string> := [
    "BE", "NL", "DE", "AT",
    "PL", "FR", "PT", "GB",
    "LU", "EE", "CH", "IE",
    "SK", "LV", "SI", "LT",
    "CZ", "HU", "HR", "ES",
    "IT", "DK", "FI", "SE",
    "NO"
  ]

  const SENDER_FIELDS: seq<string> := [
    "name1", "name2", "street", "houseNo", "state", "country", "zipCode",
    "city", "email", "phone", "gln", "contact", "fax", "customerNumber"
  ]
  const RECIPIENT_FIELDS: seq<string> := [
    "name1", "name2", "street", "houseNo", "state", "country", "gln",
    "zipCode", "customerNumber", "contact", "phone", "fax", "email", "city", "comment"
  ]

  // The messages of the exceptions the builder raises. The incomplete
  // predict array is reported with the parcel message.
  const ERR_INCOMPLETE: string := "DPD: Parcel array not complete"
  const ERR_LENGTH: string := "DPD: Minimum value for \"length\" is 100."
  const ERR_WIDTH: string := "DPD: Minimum value for \"width\" is 100."
  const ERR_HEIGHT: string := "DPD: Minimum value for \"height\" is 1."
  const ERR_EMAIL: string := "DPD: Predict email address not valid"
  const ERR_TELEPHONE: string := "DPD: Predict value (telephone) empty"
  const ERR_SMS: string := "DPD: Predict value (sms) empty"
  const ERR_CHANNEL: string := "DPD: Predict channel not allowed"
  const ERR_PREDICT_COUNTRY: string := "DPD: Predict service not available for this destination"
  const ERR_NO_PARCELS: string := "DPD: Create at least 1 parcel"
  const SOAP_FAULT_PREFIX: string := "SOAP Fehler "

  /** A `DPDException` with its message, or a PHP 8 `TypeError` raised by a built-in. */
  datatype Error = DpdException(message: string) | TypeError

  datatype Outcome = Pass | Fail(error: Error)

  datatype Checked<T> = Ok(value: T) | Err(error: Error)

  /** The `dpd.*` configuration values the order message starts from. */
  datatype Config = Config(paperFormat: Value, printerLanguage: Value, startPosition: Value, saturdayDelivery: Value)

  datatype Environment = Environment(wsdlCache: bool, shipWsdl: string)

  /** One entry of the parcel list: the encoded dimensions and the weight unit count. */
  datatype Parcel = Parcel(volume: string, weight: int)

  /**
   * `order.parcels`: the parcels in the order they were added, and whether
   * the extra `'returns' => true` entry has been put into the same array.
   */
  datatype Parcels = Parcels(items: seq<Parcel>, returnsEntry: bool)

  /**
   * `storeOrderMessage`: `printOptions`, and the three parts of `order`
   * (`generalShipmentData`, holding `sender` and `recipient` as nested
   * arrays; `parcels`; `productAndServiceData`, holding `predict` once set).
   */
  datatype OrderMessage = OrderMessage(
    printOptions: Record,
    generalShipmentData: Record,
    parcels: Parcels,
    productAndServiceData: Record)

  datatype AirWayBill = AirWayBill(airWayBill: string, trackingLink: string)

  /**
   * The array given to `addParcel`: None where the key is not set, and the
   * `return` entry as given (Null where it is missing).
   */
  datatype ParcelInput = ParcelInput(
    weight: Option<int>,
    height: Option<int>,
    length: Option<int>,
    width: Option<int>,
    returnFlag: Value)

  /**
   * What the remote `storeOrders` call did: raised a SOAP fault (with the
   * fault message of its detail, if it has one), or answered with an
   * optional fault message, the label PDF and the parcel label numbers.
   */
  datatype StoreOrdersReply =
    | SoapFault(detailMessage: Option<string>, faultstring: string)
    | Reply(faultMessage: Option<string>, parcellabelsPDF: seq<byte>, parcelLabelNumbers: seq<string>)

  /** The shipment service: the staging one exactly when the authorisation says so. */
  function ShipWsdl(staging: bool): (w: string)
    ensures w == TEST_SHIP_WSDL <==> staging
    ensures w == SHIP_WSDL <==> !staging
  {
    if staging then TEST_SHIP_WSDL else SHIP_WSDL
  }

  /** `count()` of the parcel array, which also counts the `returns` entry. */
  function Count(ps: Parcels): (n: nat)
    ensures |ps.items| <= n <= |ps.items| + 1
    ensures n == |ps.items| + 1 <==> ps.returnsEntry
    ensures n == 0 <==> ps.items == [] && !ps.returnsEntry
  {
    |ps.items| + if ps.returnsEntry then 1 else 0
  }

  /** An array with exactly the given keys, all null. */
  function NullRecord(keys: seq<string>): (r: Record)
    ensures forall k :: k in r <==> k in keys
    ensures forall k :: k in r ==> r[k] == Null
  {
    map k | k in keys :: Null
  }

  predicate PredictIsSet(m: OrderMessage) {
    IsSet(m.productAndServiceData, "predict")
  }

  /** A stored predict record: an array whose channel is one of the codes 1, 2, 3. */
  predicate ValidPredict(v: Value) {
    v.Arr? && "channel" in v.m && v.m["channel"] in {Int(1), Int(2), Int(3)}
  }

  /** What every order message the builder holds satisfies. */
  predicate WellFormed(m: OrderMessage) {
    && (m.parcels.returnsEntry ==> |m.parcels.items| > 0)
    && (forall p :: p in m.parcels.items ==> |p.volume| >= 9 && IsDigits(p.volume))
    && (PredictIsSet(m) ==> ValidPredict(m.productAndServiceData["predict"]))
  }

  /** In a well-formed message the parcel count is zero exactly when no parcel was added. */
  lemma CountZeroIffNoParcels(m: OrderMessage)
    requires WellFormed(m)
    ensures Count(m.parcels) == 0 <==> m.parcels.items == []
  {
  }

  /** Appending a parcel of the kind `addParcel` builds, and perhaps the `returns` entry, keeps a message well formed. */
  lemma AppendKeepsWellFormed(m: OrderMessage, parcel: Parcel, returnFlag: bool)
    requires WellFormed(m)
    requires |parcel.volume| >= 9 && IsDigits(parcel.volume)
    ensures WellFormed(m.(parcels := Parcels(m.parcels.items + [parcel], m.parcels.returnsEntry || returnFlag)))
  {
  }

  /** The general shipment data of a new order: the depot, and null everywhere else. */
  function FreshGeneralData(auth: Authorisation): (g: Record)
    ensures g.Keys ==
      {"sendingDepot", "product", "mpsCustomerReferenceNumber1", "mpsCustomerReferenceNumber2", "sender", "recipient"}
    ensures g["sendingDepot"] == auth.depot
    ensures g["product"] == Null
    ensures g["mpsCustomerReferenceNumber1"] == Null && g["mpsCustomerReferenceNumber2"] == Null
    ensures g["sender"] == Arr(NullRecord(SENDER_FIELDS))
    ensures g["recipient"] == Arr(NullRecord(RECIPIENT_FIELDS))
  {
    map[
      "sendingDepot" := auth.depot,
      "product" := Null,
      "mpsCustomerReferenceNumber1" := Null,
      "mpsCustomerReferenceNumber2" := Null,
      "sender" := Arr(NullRecord(SENDER_FIELDS)),
      "recipient" := Arr(NullRecord(RECIPIENT_FIELDS))]
  }

  /** The order message `startNewOrder` installs. */
  function FreshOrder(auth: Authorisation, config: Config): (m: OrderMessage)
    ensures WellFormed(m) && !PredictIsSet(m)
    ensures m.parcels.items == [] && Count(m.parcels) == 0
    ensures m.productAndServiceData.Keys == {"saturdayDelivery", "orderType", "guarantee"}
    ensures m.productAndServiceData["orderType"] == Str("consignment")
    ensures m.productAndServiceData["guarantee"] == Bool(false)
    ensures m.productAndServiceData["saturdayDelivery"] == config.saturdayDelivery
    ensures m.printOptions.Keys == {"paperFormat", "printerLanguage", "startPosition"}
    ensures m.printOptions["paperFormat"] == config.paperFormat
    ensures m.printOptions["printerLanguage"] == config.printerLanguage
    ensures m.printOptions["startPosition"] == config.startPosition
    ensures m.generalShipmentData.Keys ==
      {"sendingDepot", "product", "mpsCustomerReferenceNumber1", "mpsCustomerReferenceNumber2", "sender", "recipient"}
    ensures m.generalShipmentData["product"] == Null
    ensures m.generalShipmentData["mpsCustomerReferenceNumber1"] == Null
    ensures m.generalShipmentData["mpsCustomerReferenceNumber2"] == Null
    ensures "sendingDepot" in m.generalShipmentData && "sender" in m.generalShipmentData
    ensures "recipient" in m.generalShipmentData
    ensures m.generalShipmentData["sendingDepot"] == auth.depot
    ensures m.generalShipmentData["sender"] == Arr(NullRecord(SENDER_FIELDS))
    ensures m.generalShipmentData["recipient"] == Arr(NullRecord(RECIPIENT_FIELDS))
  {
    OrderMessage(
      map[
        "paperFormat" := config.paperFormat,
        "printerLanguage" := config.printerLanguage,
        "startPosition" := config.startPosition],
      FreshGeneralData(auth),
      Parcels([], false),
      map[
        "saturdayDelivery" := config.saturdayDelivery,
        "orderType" := Str("consignment"),
        "guarantee" := Bool(false)])
  }

  // ---------------------------------------------------------------- parcels

  predicate ParcelComplete(p: ParcelInput) {
    p.weight.Some? && p.height.Some? && p.length.Some? && p.width.Some?
  }

  /** The validation `addParcel` performs, in its order: completeness, then length, width, height. */
  function ParcelCheck(p: ParcelInput): (r: Outcome)
    ensures r == Pass <==>
      ParcelComplete(p) && p.length.value >= 1 && p.width.value >= 1 && p.height.value >= 1
    ensures !ParcelComplete(p) ==> r == Fail(DpdException(ERR_INCOMPLETE))
    ensures ParcelComplete(p) && p.length.value < 1 ==> r == Fail(DpdException(ERR_LENGTH))
    ensures ParcelComplete(p) && p.length.value >= 1 && p.width.value < 1 ==>
      r == Fail(DpdException(ERR_WIDTH))
    ensures ParcelComplete(p) && p.length.value >= 1 && p.width.value >= 1 && p.height.value < 1 ==>
      r == Fail(DpdException(ERR_HEIGHT))
  {
    if !ParcelComplete(p) then Fail(DpdException(ERR_INCOMPLETE))
    else if p.length.value < 1 then Fail(DpdException(ERR_LENGTH))
    else if p.width.value < 1 then Fail(DpdException(ERR_WIDTH))
    else if p.height.value < 1 then Fail(DpdException(ERR_HEIGHT))
    else Pass
  }

  /** One dimension in the volume: its decimal text, left-padded with '0' to at least 3 characters. */
  function DimensionText(d: int): (t: string)
    requires d >= 1
    ensures |t| >= 3 && IsDigits(t) && DecimalValue(t) == d
    ensures |t| == 3 <==> d < 1000
    ensures d >= 100 ==> t[0] != '0'
  {
    DecimalRoundTrip(d);
    PadLeftValue(NatToDecimal(d), 3);
    DecimalLength(d);
    PadLeft(NatToDecimal(d), 3, '0')
  }

  /** Below 1000 a number has at most three digits; from 100 on, at least three. */
  lemma DecimalLength(d: nat)
    ensures d < 1000 ==> |NatToDecimal(d)| <= 3
    ensures d >= 100 ==> |NatToDecimal(d)| >= 3
  {
    if d < 1000 {
      ShortDecimal(d);
    }
    if d >= 100 {
      ShortDecimalBound(d);
    }
  }

  /** Numbers of 100 and more have at least three digits. */
  lemma {:induction false} ShortDecimalBound(n: nat)
    requires n >= 100
    ensures |NatToDecimal(n)| >= 3
  {
    assert NatToDecimal(n) == NatToDecimal(n / 10) + [DigitChar(n % 10)];
    assert NatToDecimal(n / 10) == NatToDecimal(n / 100) + [DigitChar((n / 10) % 10)];
  }

  /** The `volume` of a parcel: length, width and height, each as a padded dimension. */
  function Volume(length: int, width: int, height: int): (v: string)
    requires length >= 1 && width >= 1 && height >= 1
    ensures |v| >= 9 && IsDigits(v)
    ensures |v| == |DimensionText(length)| + |DimensionText(width)| + |DimensionText(height)|
  {
    DigitsAppend(DimensionText(length), DimensionText(width));
    DigitsAppend(DimensionText(length) + DimensionText(width), DimensionText(height));
    DimensionText(length) + DimensionText(width) + DimensionText(height)
  }

  /** Dimensions below 1000 give exactly nine characters, three per dimension, each reading back as given. */
  lemma VolumeRoundTrip(length: int, width: int, height: int)
    requires 1 <= length < 1000 && 1 <= width < 1000 && 1 <= height < 1000
    ensures |Volume(length, width, height)| == 9
    ensures IsDigits(Volume(length, width, height)[0..3]) && DecimalValue(Volume(length, width, height)[0..3]) == length
    ensures IsDigits(Volume(length, width, height)[3..6]) && DecimalValue(Volume(length, width, height)[3..6]) == width
    ensures IsDigits(Volume(length, width, height)[6..9]) && DecimalValue(Volume(length, width, height)[6..9]) == height
  {
    ConcatParts(DimensionText(length), DimensionText(width), DimensionText(height));
  }

  /** Larger dimensions are never truncated: the volume keeps every digit of each. */
  lemma VolumeKeepsAllDigits(length: int, width: int, height: int)
    requires length >= 1 && width >= 1 && height >= 1
    ensures var v := Volume(length, width, height);
      var a, b := |DimensionText(length)|, |DimensionText(length)| + |DimensionText(width)|;
      DecimalValue(v[..a]) == length && DecimalValue(v[a..b]) == width && DecimalValue(v[b..]) == height
  {
    ConcatParts(DimensionText(length), DimensionText(width), DimensionText(height));
  }

  /** The three pieces of a concatenation, cut back out at their boundaries. */
  lemma ConcatParts<T>(a: seq<T>, b: seq<T>, c: seq<T>)
    ensures (a + b + c)[..|a|] == a && (a + b + c)[0..|a|] == a
    ensures (a + b + c)[|a|..|a| + |b|] == b
    ensures (a + b + c)[|a| + |b|..] == c && (a + b + c)[|a| + |b|..|a| + |b| + |c|] == c
  {
  }

  /** `(int) ceil($weight / 10)` for an integral weight: the least r with weight <= 10 * r. */
  function CeilDiv10(w: int): (r: int)
    ensures 10 * r - 10 < w <= 10 * r
  {
    -((-w) / 10)
  }

  /** The parcel `addParcel` appends for an accepted input. */
  function NewParcel(p: ParcelInput): (parcel: Parcel)
    requires ParcelCheck(p) == Pass
    ensures parcel.volume == Volume(p.length.value, p.width.value, p.height.value)
    ensures |parcel.volume| >= 9 && IsDigits(parcel.volume)
    ensures 10 * parcel.weight - 10 < p.weight.value <= 10 * parcel.weight
  {
    Parcel(Volume(p.length.value, p.width.value, p.height.value), CeilDiv10(p.weight.value))
  }

  // ---------------------------------------------------------------- predict

  /** `ctype_alpha`: on an integer from -128 to 255 it tests the character with that code. */
  function CtypeAlpha(v: Value): (r: bool)
    ensures v.Str? ==> (r <==> |v.s| >= 1 && forall i :: 0 <= i < |v.s| ==> IsAsciiLetter(v.s[i]))
    ensures v.Int? ==> (r <==> 0 <= v.i < 128 && IsAsciiLetter(v.i as char))
    ensures !v.Str? && !v.Int? ==> !r
  {
    match v
    case Str(s) => IsAlpha(s)
    case Int(i) => 65 <= i <= 90 || 97 <= i <= 122
    case _ => false
  }

  /** The language as stored: upper-cased when it is two alphabetic characters, otherwise as given. */
  function NormaliseLanguage(v: Value): (r: Value)
    ensures v.Str? && |v.s| == 2 && IsAlpha(v.s) ==> r == Str(ToUpper(v.s))
    ensures v.Str? && !(|v.s| == 2 && IsAlpha(v.s)) ==> r == v
    ensures r != v ==> r.Str? && |r.s| == 2 && forall i :: 0 <= i < 2 ==> !IsLowerAscii(r.s[i])
    ensures !CtypeAlpha(v) ==> r == v
    ensures v.Int? && CtypeAlpha(v) ==> r == if v.i < 100 then Str(IntToString(v.i)) else v
  {
    match StringOf(v)
    case Some(s) =>
      LetterCodeText(v);
      if CtypeAlpha(v) && |s| == 2 then Str(ToUpper(s)) else v
    case None => v
  }

  /**
   * The text of an integer `ctype_alpha` accepts (a letter code, 65 to 122):
   * two digits below 100, three from 100 on, and unchanged by `strtoupper`.
   */
  lemma LetterCodeText(v: Value)
    ensures v.Int? && CtypeAlpha(v) ==>
      (|IntToString(v.i)| == 2 <==> v.i < 100) && ToUpper(IntToString(v.i)) == IntToString(v.i)
  {
    if v.Int? && CtypeAlpha(v) {
      var t := IntToString(v.i);
      assert t == NatToDecimal(v.i);
      if v.i < 100 {
        assert t == NatToDecimal(v.i / 10) + [DigitChar(v.i % 10)];
      } else {
        ShortDecimalBound(v.i);
      }
      assert forall i :: 0 <= i < |t| ==> IsDigit(t[i]) && !IsLowerAscii(t[i]);
    }
  }

  /** Normalising a normalised language changes nothing. */
  lemma NormaliseLanguageIdempotent(v: Value)
    ensures NormaliseLanguage(NormaliseLanguage(v)) == NormaliseLanguage(v)
  {
    var r := NormaliseLanguage(v);
    if r != v {
      if v.Str? {
        UpperKeepsAlpha(v.s);
        UpperIdempotent(v.s);
      } else {
        assert v.Int? && v.i >= 0;
        assert IsDigit(r.s[0]);
        assert !IsAlpha(r.s);
      }
    }
  }

  /** `strtolower` of the channel; None where it raises a TypeError. */
  function ChannelName(channel: Value): (r: Option<string>)
    ensures r.None? <==> channel.Arr?
    ensures channel.Str? ==> r == Some(ToLower(channel.s))
    ensures r.Some? ==> StringOf(channel).Some? && r.value == ToLower(StringOf(channel).value)
    ensures r.Some? ==> forall i :: 0 <= i < |r.value| ==> !IsUpperAscii(r.value[i])
  {
    match StringOf(channel)
    case Some(s) => Some(ToLower(s))
    case None => None
  }

  /** The channel code a known channel name maps to. */
  function ChannelCode(name: string): int {
    if name == "email" then 1 else if name == "telephone" then 2 else if name == "sms" then 3 else 0
  }

  predicate PredictComplete(input: Record) {
    IsSet(input, "channel") && IsSet(input, "value") && IsSet(input, "language")
  }

  /** The channel name is known and its value acceptable: a valid address, or a non-empty number. */
  predicate ChannelAccepts(name: string, value: Value, validEmail: Value -> bool) {
    || (name == "email" && validEmail(value))
    || (name == "telephone" && !IsEmpty(value))
    || (name == "sms" && !IsEmpty(value))
  }

  /** The validation and normalisation `setPredict` performs, giving the record it stores. */
  function PredictRecord(input: Record, validEmail: Value -> bool): (r: Checked<Record>)
    ensures !PredictComplete(input) ==> r == Err(DpdException(ERR_INCOMPLETE))
    ensures PredictComplete(input) && input["channel"].Arr? ==> r == Err(TypeError)
    ensures r.Ok? <==>
      PredictComplete(input) && ChannelName(input["channel"]).Some? &&
      ChannelAccepts(ChannelName(input["channel"]).value, input["value"], validEmail)
    ensures r.Ok? ==>
      && r.value.Keys == input.Keys
      && r.value["channel"] == Int(ChannelCode(ChannelName(input["channel"]).value))
      && ValidPredict(Arr(r.value))
      && r.value["language"] == NormaliseLanguage(input["language"])
      && forall k :: k in input && k != "channel" && k != "language" ==> r.value[k] == input[k]
    ensures PredictComplete(input) && ChannelName(input["channel"]).Some? ==>
      var name := ChannelName(input["channel"]).value;
      && (name !in {"email", "telephone", "sms"} ==> r == Err(DpdException(ERR_CHANNEL)))
      && (name == "email" && !validEmail(input["value"]) ==> r == Err(DpdException(ERR_EMAIL)))
      && (name == "telephone" && IsEmpty(input["value"]) ==> r == Err(DpdException(ERR_TELEPHONE)))
      && (name == "sms" && IsEmpty(input["value"]) ==> r == Err(DpdException(ERR_SMS)))
  {
    if !PredictComplete(input) then Err(DpdException(ERR_INCOMPLETE))
    else
      match ChannelName(input["channel"])
      case None => Err(TypeError)
      case Some(name) =>
        var value := input["value"];
        if name == "email" && !validEmail(value) then Err(DpdException(ERR_EMAIL))
        else if name == "telephone" && IsEmpty(value) then Err(DpdException(ERR_TELEPHONE))
        else if name == "sms" && IsEmpty(value) then Err(DpdException(ERR_SMS))
        else if name !in {"email", "telephone", "sms"} then Err(DpdException(ERR_CHANNEL))
        else Ok(input["channel" := Int(ChannelCode(name))]["language" := NormaliseLanguage(input["language"])])
  }

  /**
   * A channel that is not a string (true, false or an integer) is converted
   * to "1", "" or digits, none of which names a channel, so it is refused.
   */
  lemma NonStringChannelRefused(input: Record, validEmail: Value -> bool)
    requires PredictComplete(input) && !input["channel"].Str? && !input["channel"].Arr?
    ensures PredictRecord(input, validEmail) == Err(DpdException(ERR_CHANNEL))
  {
    var name := ChannelName(input["channel"]).value;
    var text := StringOf(input["channel"]).value;
    assert |name| > 0 ==> name[0] == text[0];
    if input["channel"].Int? {
      var i := input["channel"].i;
      assert i >= 0 ==> text == NatToDecimal(i) && IsDigit(text[0]);
    }
    assert |name| == 0 || name[0] == '-' || IsDigit(name[0]);
    assert "email"[0] == 'e' && "telephone"[0] == 't' && "sms"[0] == 's';
  }

  /** The channel name is matched without regard to case. */
  lemma ChannelCaseInsensitive(input: Record, channel: string, validEmail: Value -> bool)
    ensures PredictRecord(input["channel" := Str(channel)], validEmail)
         == PredictRecord(input["channel" := Str(ToUpper(channel))], validEmail)
  {
    LowerOfUpper(channel);
    var a, b := input["channel" := Str(channel)], input["channel" := Str(ToUpper(channel))];
    assert ChannelName(a["channel"]) == ChannelName(b["channel"]);
    forall c: int ensures a["channel" := Int(c)] == b["channel" := Int(c)] {
      assert a["channel" := Int(c)] == input["channel" := Int(c)];
      assert b["channel" := Int(c)] == input["channel" := Int(c)];
    }
  }

  // ---------------------------------------------------------------- setters

  /** The recipient's `country` entry as `submit` reads it; Null where there is none. */
  function RecipientCountry(m: OrderMessage): Value {
    var gsd := m.generalShipmentData;
    if "recipient" in gsd && gsd["recipient"].Arr? && "country" in gsd["recipient"].m
    then gsd["recipient"].m["country"]
    else Null
  }

  /**
   * `array_merge` of `data` into the nested array `party` of the general
   * shipment data; a TypeError where that entry is not an array.
   */
  function MergeParty(m: OrderMessage, party: string, data: Record): (r: Checked<OrderMessage>)
    ensures r.Ok? <==> party in m.generalShipmentData && m.generalShipmentData[party].Arr?
    ensures r.Err? ==> r.error == TypeError
    ensures r.Ok? ==>
      && r.value.printOptions == m.printOptions
      && r.value.parcels == m.parcels
      && r.value.productAndServiceData == m.productAndServiceData
      && r.value.generalShipmentData.Keys == m.generalShipmentData.Keys
      && (forall k :: k in m.generalShipmentData && k != party ==>
            r.value.generalShipmentData[k] == m.generalShipmentData[k])
      && r.value.generalShipmentData[party].Arr?
  {
    var gsd := m.generalShipmentData;
    if party in gsd && gsd[party].Arr? then
      Ok(m.(generalShipmentData := gsd[party := Arr(ArrayMerge(gsd[party].m, data))]))
    else
      Err(TypeError)
  }

  /**
   * The array `setSender` merges: the caller's, with `customerNumber` taken
   * from the authorisation and `city` upper-cased (a missing city reads as
   * null, which becomes ""); a TypeError where the city is an array.
   */
  function SenderData(data: Record, customerNumber: Value): (r: Checked<Record>)
    ensures r.Err? <==> "city" in data && data["city"].Arr?
    ensures r.Err? ==> r.error == TypeError
    ensures r.Ok? ==>
      && r.value.Keys == data.Keys + {"customerNumber", "city"}
      && r.value["customerNumber"] == customerNumber
      && r.value["city"].Str?
      && (forall i :: 0 <= i < |r.value["city"].s| ==> !IsLowerAscii(r.value["city"].s[i]))
      && ("city" in data && data["city"].Str? ==> r.value["city"] == Str(ToUpper(data["city"].s)))
      && ("city" !in data ==> r.value["city"] == Str(""))
      && ("city" in data ==> r.value["city"] == Str(ToUpper(StringOf(data["city"]).value)))
      && forall k :: k in data && k != "customerNumber" && k != "city" ==> r.value[k] == data[k]
  {
    var city := if "city" in data then data["city"] else Null;
    match StringOf(city)
    case None => Err(TypeError)
    case Some(c) => Ok(data["customerNumber" := customerNumber]["city" := Str(ToUpper(c))])
  }

  /** The whole of `setSender` on an order message. */
  function SenderUpdate(m: OrderMessage, data: Record, customerNumber: Value): (r: Checked<OrderMessage>)
    ensures r.Ok? <==>
      !("city" in data && data["city"].Arr?) &&
      "sender" in m.generalShipmentData && m.generalShipmentData["sender"].Arr?
    ensures r.Err? ==> r.error == TypeError
    ensures r.Ok? ==>
      && r.value.printOptions == m.printOptions
      && r.value.parcels == m.parcels
      && r.value.productAndServiceData == m.productAndServiceData
      && r.value.generalShipmentData.Keys == m.generalShipmentData.Keys
      && (forall k :: k in m.generalShipmentData && k != "sender" ==>
            r.value.generalShipmentData[k] == m.generalShipmentData[k])
      && r.value.generalShipmentData["sender"] ==
           Arr(ArrayMerge(m.generalShipmentData["sender"].m, SenderData(data, customerNumber).value))
  {
    match SenderData(data, customerNumber)
    case Err(e) => Err(e)
    case Ok(d) => MergeParty(m, "sender", d)
  }

  /**
   * After `setSender` the sender's customer number is the authorisation's,
   * its city upper case, every other key given by the caller takes the
   * caller's value, and every key not given keeps its previous value.
   */
  lemma SenderUpdateFields(m: OrderMessage, data: Record, customerNumber: Value)
    requires SenderUpdate(m, data, customerNumber).Ok?
    ensures var old_ := m.generalShipmentData["sender"].m;
      var new_ := SenderUpdate(m, data, customerNumber).value.generalShipmentData["sender"].m;
      && new_.Keys == old_.Keys + data.Keys + {"customerNumber", "city"}
      && new_["customerNumber"] == customerNumber
      && new_["city"].Str?
      && (forall i :: 0 <= i < |new_["city"].s| ==> !IsLowerAscii(new_["city"].s[i]))
      && (forall k :: k in data && k != "customerNumber" && k != "city" ==> new_[k] == data[k])
      && (forall k :: k in old_ && k !in data && k != "customerNumber" && k != "city" ==> new_[k] == old_[k])
  {
    var d := SenderData(data, customerNumber).value;
    var old_ := m.generalShipmentData["sender"].m;
    assert SenderUpdate(m, data, customerNumber).value.generalShipmentData["sender"].m == ArrayMerge(old_, d);
  }

  // ---------------------------------------------------------------- submit

  /** The predict destination check: the upper-cased recipient country is listed. */
  predicate PredictDestinationAllowed(m: OrderMessage) {
    match StringOf(RecipientCountry(m))
    case Some(c) => ToUpper(c) in PREDICT_COUNTRIES
    case None => false
  }

  /** The checks `submit` makes before the remote call; the predict check comes first. */
  function SubmitCheck(m: OrderMessage): (r: Outcome)
    ensures r == Pass <==> (PredictIsSet(m) ==> PredictDestinationAllowed(m)) && Count(m.parcels) > 0
    ensures PredictIsSet(m) && RecipientCountry(m).Arr? ==> r == Fail(TypeError)
    ensures PredictIsSet(m) && !RecipientCountry(m).Arr? && !PredictDestinationAllowed(m) ==>
      r == Fail(DpdException(ERR_PREDICT_COUNTRY))
    ensures (PredictIsSet(m) ==> PredictDestinationAllowed(m)) && Count(m.parcels) == 0 ==>
      r == Fail(DpdException(ERR_NO_PARCELS))
  {
    if PredictIsSet(m) && StringOf(RecipientCountry(m)).None? then Fail(TypeError)
    else if PredictIsSet(m) && !PredictDestinationAllowed(m) then Fail(DpdException(ERR_PREDICT_COUNTRY))
    else if Count(m.parcels) == 0 then Fail(DpdException(ERR_NO_PARCELS))
    else Pass
  }

  /** A fresh order with one accepted parcel and no predict passes the pre-call checks. */
  lemma OneParcelSubmits(auth: Authorisation, config: Config, p: ParcelInput)
    requires ParcelCheck(p) == Pass
    ensures var m := FreshOrder(auth, config);
      SubmitCheck(m.(parcels := Parcels([NewParcel(p)], p.returnFlag == Bool(true)))) == Pass
  {
  }

  /** How the remote call ended: a SOAP fault or a reported fault raises, anything else passes. */
  function ReplyOutcome(reply: StoreOrdersReply): (r: Outcome)
    ensures r == Pass <==> reply.Reply? && reply.faultMessage.None?
    ensures reply.SoapFault? ==> r == Fail(DpdException(reply.detailMessage.GetOr(reply.faultstring)))
    ensures reply.Reply? && reply.faultMessage.Some? ==>
      r == Fail(DpdException(SOAP_FAULT_PREFIX + reply.faultMessage.value))
  {
    match reply
    case SoapFault(detail, faultstring) => Fail(DpdException(detail.GetOr(faultstring)))
    case Reply(Some(message), _, _) => Fail(DpdException(SOAP_FAULT_PREFIX + message))
    case Reply(None, _, _) => Pass
  }

  /**
   * `strtr($s, [':awb' => $awb, ':lang' => $lang])`: one left-to-right pass
   * that replaces each placeholder, longest key first, and never rescans
   * replaced text.
   */
  function Strtr(s: string, awb: string, lang: string): (r: string)
    ensures (forall i :: 0 <= i < |s| ==> s[i] != ':') ==> r == s
    ensures s == [] ==> r == []
    decreases |s|
  {
    if s == [] then []
    else if LANG_KEY <= s then
      assert s[0] == LANG_KEY[0] == ':';
      lang + Strtr(s[|LANG_KEY|..], awb, lang)
    else if AWB_KEY <= s then
      assert s[0] == AWB_KEY[0] == ':';
      awb + Strtr(s[|AWB_KEY|..], awb, lang)
    else [s[0]] + Strtr(s[1..], awb, lang)
  }

  /** Text in which no placeholder can start: each ':' is followed by '/'. */
  predicate Inert(s: string) {
    forall i :: 0 <= i < |s| && s[i] == ':' ==> i + 1 < |s| && s[i + 1] == '/'
  }

  /** Where no placeholder starts, `Strtr` copies one character and carries on. */
  lemma StrtrCopies(st: string, awb: string, lang: string)
    requires st != [] && (st[0] != ':' || (|st| >= 2 && st[1] == '/'))
    ensures Strtr(st, awb, lang) == [st[0]] + Strtr(st[1..], awb, lang)
  {
    assert LANG_KEY[0] == ':' && LANG_KEY[1] == 'l';
    assert AWB_KEY[0] == ':' && AWB_KEY[1] == 'a';
    PrefixHead(LANG_KEY, st);
    PrefixHead(AWB_KEY, st);
  }

  /** A string that starts with `key` starts with its first two characters. */
  lemma PrefixHead(key: string, st: string)
    ensures key <= st && |key| >= 2 ==> |st| >= 2 && st[0] == key[0] && st[1] == key[1]
  {
  }

  /** Dropping the first character keeps a text inert. */
  lemma InertTail(s: string)
    requires s != [] && Inert(s)
    ensures Inert(s[1..])
  {
    forall i | 0 <= i < |s| - 1 && s[1..][i] == ':' ensures i + 1 < |s| - 1 && s[1..][i + 1] == '/' {
      assert s[i + 1] == ':';
    }
  }

  /** `Strtr` copies inert text unchanged and carries on after it. */
  lemma {:induction false} StrtrInert(s: string, t: string, awb: string, lang: string)
    requires Inert(s)
    ensures Strtr(s + t, awb, lang) == s + Strtr(t, awb, lang)
    decreases |s|
  {
    if s != [] {
      var rest := Strtr(t, awb, lang);
      calc {
        Strtr(s + t, awb, lang);
      == { InertHead(s, t); StrtrCopies(s + t, awb, lang); }
        [(s + t)[0]] + Strtr((s + t)[1..], awb, lang);
      == { assert (s + t)[0] == s[0] && (s + t)[1..] == s[1..] + t; }
        [s[0]] + Strtr(s[1..] + t, awb, lang);
      == { InertTail(s); StrtrInert(s[1..], t, awb, lang); }
        [s[0]] + (s[1..] + rest);
      == { assert s == [s[0]] + s[1..]; }
        s + rest;
      }
    } else {
      assert s + t == t;
    }
  }

  /** An inert text's first character starts no placeholder, whatever follows it. */
  lemma InertHead(s: string, t: string)
    requires s != [] && Inert(s)
    ensures (s + t)[0] != ':' || (|s + t| >= 2 && (s + t)[1] == '/')
  {
    if s[0] == ':' {
      assert s[1] == '/';
    }
  }

  /**
   * The tracking link of an airway bill: the template with `:lang` replaced
   * by the language and `:awb` by the number, whatever text they contain.
   */
  function TrackingLink(awb: string, lang: string): (link: string)
    ensures link == TRACKING_PREFIX + lang + QUERY_PART + awb
  {
    TrackingLinkShape(awb, lang);
    Strtr(TRACKING_URL, awb, lang)
  }

  /** No placeholder starts in the fixed parts of the template. */
  lemma TrackingUrlInert()
    ensures Inert(TRACKING_PREFIX) && Inert(QUERY_PART)
  {
    ColonFreeInert(TRACKING_SCHEME);
    ColonFreeInert(TRACKING_PATH);
    ColonFreeInert(QUERY_PART);
    assert SCHEME_SEPARATOR[0] == ':' && SCHEME_SEPARATOR[1] == '/' && SCHEME_SEPARATOR[2] == '/';
    InertAppend(TRACKING_SCHEME, SCHEME_SEPARATOR);
    InertAppend(TRACKING_SCHEME + SCHEME_SEPARATOR, TRACKING_PATH);
  }

  /** Text without any ':' is inert. */
  lemma ColonFreeInert(s: string)
    requires ':' !in s
    ensures Inert(s)
  {
    forall i | 0 <= i < |s| ensures s[i] != ':' {
      assert s[i] in s;
    }
  }

  /** Two inert texts stay inert when joined, unless the first ends in ':'. */
  lemma InertAppend(a: string, b: string)
    requires Inert(a) && Inert(b) && (a == [] || a[|a| - 1] != ':')
    ensures Inert(a + b)
  {
    forall i | 0 <= i < |a + b| && (a + b)[i] == ':' ensures i + 1 < |a + b| && (a + b)[i + 1] == '/' {
      if i < |a| {
        assert a[i] == ':';
      } else {
        assert b[i - |a|] == ':';
      }
    }
  }

  /** A placeholder at the front is replaced by its value, and the scan goes on after it. */
  lemma StrtrPlaceholder(rest: string, awb: string, lang: string)
    ensures Strtr(LANG_KEY + rest, awb, lang) == lang + Strtr(rest, awb, lang)
    ensures Strtr(AWB_KEY + rest, awb, lang) == awb + Strtr(rest, awb, lang)
  {
    assert (LANG_KEY + rest)[|LANG_KEY|..] == rest;
    assert (AWB_KEY + rest)[|AWB_KEY|..] == rest;
    PrefixHead(LANG_KEY, AWB_KEY + rest);
  }

  /** Replacing in a template made of two inert parts and the two placeholders. */
  lemma StrtrTemplate(prefix: string, query: string, awb: string, lang: string)
    requires Inert(prefix) && Inert(query)
    ensures Strtr(prefix + LANG_KEY + query + AWB_KEY, awb, lang) == prefix + lang + query + awb
  {
    var tail := query + AWB_KEY;
    var afterPrefix := LANG_KEY + tail;
    assert prefix + LANG_KEY + query + AWB_KEY == prefix + afterPrefix;
    calc {
      Strtr(prefix + afterPrefix, awb, lang);
    == { StrtrInert(prefix, afterPrefix, awb, lang); }
      prefix + Strtr(afterPrefix, awb, lang);
    == { StrtrPlaceholder(tail, awb, lang); }
      prefix + (lang + Strtr(tail, awb, lang));
    == { StrtrInert(query, AWB_KEY, awb, lang); }
      prefix + (lang + (query + Strtr(AWB_KEY, awb, lang)));
    == { StrtrPlaceholder([], awb, lang); assert AWB_KEY + [] == AWB_KEY; }
      prefix + (lang + (query + awb));
    }
    assert prefix + (lang + (query + awb)) == prefix + lang + query + awb;
  }

  lemma TrackingLinkShape(awb: string, lang: string)
    ensures Strtr(TRACKING_URL, awb, lang) == TRACKING_PREFIX + lang + QUERY_PART + awb
  {
    TrackingUrlInert();
    StrtrTemplate(TRACKING_PREFIX, QUERY_PART, awb, lang);
  }

  /** The airway bills for the returned label numbers, in response order. */
  function AirWayBillsFor(numbers: seq<string>, lang: string): (r: seq<AirWayBill>)
    ensures |r| == |numbers|
    ensures forall i :: 0 <= i < |numbers| ==>
      r[i].airWayBill == numbers[i] && r[i].trackingLink == TRACKING_PREFIX + lang + QUERY_PART + numbers[i]
  {
    if numbers == [] then []
    else
      var n := numbers[|numbers| - 1];
      AirWayBillsFor(numbers[..|numbers| - 1], lang) + [AirWayBill(n, TrackingLink(n, lang))]
  }

  /** One more label number adds its one airway bill at the end. */
  lemma AirWayBillsStep(numbers: seq<string>, i: nat, lang: string)
    requires i < |numbers|
    ensures AirWayBillsFor(numbers[..i + 1], lang) ==
      AirWayBillsFor(numbers[..i], lang) + [AirWayBill(numbers[i], TrackingLink(numbers[i], lang))]
  {
    assert numbers[..i + 1][..i] == numbers[..i];
  }

  /** The tracking language as `strtr` receives it: null reads as "". */
  function LanguageText(language: Option<string>): string {
    language.GetOr("")
  }

  // ---------------------------------------------------------------- the builder

  class Shipment {
    const authorisation: Authorisation
    const environment: Environment
    const config: Config
    /** The `FILTER_VALIDATE_EMAIL` check, which this model does not define. */
    const validEmail: Value -> bool

    var storeOrderMessage: OrderMessage
    var trackingLanguage: Option<string>
    var labelPdf: Option<seq<byte>>
    var airWayBills: seq<AirWayBill>

    ghost predicate Valid()
      reads this
    {
      WellFormed(storeOrderMessage)
    }

    constructor (authorisation: Authorisation, wsdlCache: bool, config: Config, validEmail: Value -> bool)
      ensures this.authorisation == authorisation && this.config == config && this.validEmail == validEmail
      ensures environment == Environment(wsdlCache, ShipWsdl(authorisation.staging))
      ensures storeOrderMessage == FreshOrder(authorisation, config) && airWayBills == []
      ensures trackingLanguage == None && labelPdf == None
      ensures Valid()
    {
      this.authorisation := authorisation;
      this.config := config;
      this.validEmail := validEmail;
      environment := Environment(wsdlCache, ShipWsdl(authorisation.staging));
      trackingLanguage := None;
      labelPdf := None;
      new;
      StartNewOrder();
    }

    /** `startNewOrder`: a fresh order message and no airway bills; the label and language stay. */
    method StartNewOrder()
      modifies this`storeOrderMessage, this`airWayBills
      ensures storeOrderMessage == FreshOrder(authorisation, config)
      ensures airWayBills == []
      ensures Valid()
    {
      airWayBills := [];
      storeOrderMessage := FreshOrder(authorisation, config);
    }

    /**
     * `addParcel`: on an accepted input exactly one parcel is appended (and
     * the `returns` entry set when asked for); on a refused one nothing changes.
     */
    method AddParcel(input: ParcelInput) returns (r: Outcome)
      requires Valid()
      modifies this`storeOrderMessage
      ensures Valid()
      ensures r == ParcelCheck(input)
      ensures r.Fail? ==> storeOrderMessage == old(storeOrderMessage)
      ensures r.Pass? ==> storeOrderMessage.parcels.items == old(storeOrderMessage.parcels.items) + [NewParcel(input)]
      ensures r.Pass? ==>
        storeOrderMessage.parcels.returnsEntry == (old(storeOrderMessage.parcels.returnsEntry) || input.returnFlag == Bool(true))
      ensures r.Pass? ==> storeOrderMessage == old(storeOrderMessage).(parcels := storeOrderMessage.parcels)
      ensures r.Pass? ==> Count(storeOrderMessage.parcels) > Count(old(storeOrderMessage.parcels))
    {
      if input.weight.None? || input.height.None? || input.length.None? || input.width.None? {
        return Fail(DpdException(ERR_INCOMPLETE));
      }
      var length, width, height := input.length.value, input.width.value, input.height.value;
      if length < 1 {
        return Fail(DpdException(ERR_LENGTH));
      }
      if width < 1 {
        return Fail(DpdException(ERR_WIDTH));
      }
      if height < 1 {
        return Fail(DpdException(ERR_HEIGHT));
      }
      var volume := DimensionText(length);
      volume := volume + DimensionText(width);
      volume := volume + DimensionText(height);
      assert Parcel(volume, CeilDiv10(input.weight.value)) == NewParcel(input);
      var parcels := storeOrderMessage.parcels;
      parcels := parcels.(items := parcels.items + [Parcel(volume, CeilDiv10(input.weight.value))]);
      if input.returnFlag == Bool(true) {
        parcels := parcels.(returnsEntry := true);
      }
      AppendKeepsWellFormed(storeOrderMessage, NewParcel(input), input.returnFlag == Bool(true));
      storeOrderMessage := storeOrderMessage.(parcels := parcels);
      r := Pass;
    }

    /**
     * `setPredict`: on an accepted input the normalised record becomes the
     * order's `predict` entry; on a refused one nothing changes.
     */
    method SetPredict(input: Record) returns (r: Outcome)
      requires Valid()
      modifies this`storeOrderMessage
      ensures Valid()
      ensures r.Pass? <==> PredictRecord(input, validEmail).Ok?
      ensures r.Fail? ==> r.error == PredictRecord(input, validEmail).error
      ensures r.Fail? ==> storeOrderMessage == old(storeOrderMessage)
      ensures r.Pass? ==>
        storeOrderMessage == old(storeOrderMessage).(productAndServiceData :=
          old(storeOrderMessage.productAndServiceData)["predict" := Arr(PredictRecord(input, validEmail).value)])
    {
      if !IsSet(input, "channel") || !IsSet(input, "value") || !IsSet(input, "language") {
        return Fail(DpdException(ERR_INCOMPLETE));
      }
      var record := input;
      var name := ChannelName(input["channel"]);
      if name.None? {
        return Fail(TypeError);
      }
      if name.value == "email" {
        record := record["channel" := Int(1)];
        if !validEmail(input["value"]) {
          return Fail(DpdException(ERR_EMAIL));
        }
      } else if name.value == "telephone" {
        record := record["channel" := Int(2)];
        if IsEmpty(input["value"]) {
          return Fail(DpdException(ERR_TELEPHONE));
        }
      } else if name.value == "sms" {
        record := record["channel" := Int(3)];
        if IsEmpty(input["value"]) {
          return Fail(DpdException(ERR_SMS));
        }
      } else {
        return Fail(DpdException(ERR_CHANNEL));
      }
      record := record["language" := NormaliseLanguage(input["language"])];
      storeOrderMessage := storeOrderMessage.(productAndServiceData :=
        storeOrderMessage.productAndServiceData["predict" := Arr(record)]);
      r := Pass;
    }

    /** `getParcelResponses`. */
    method GetParcelResponses() returns (r: seq<AirWayBill>)
      ensures r == airWayBills
    {
      r := airWayBills;
    }

    /** `setGeneralShipmentData`: the caller's entries replace those with the same key. */
    method SetGeneralShipmentData(data: Record)
      requires Valid()
      modifies this`storeOrderMessage
      ensures Valid()
      ensures storeOrderMessage == old(storeOrderMessage).(generalShipmentData :=
        ArrayMerge(old(storeOrderMessage.generalShipmentData), data))
    {
      storeOrderMessage := storeOrderMessage.(generalShipmentData :=
        ArrayMerge(storeOrderMessage.generalShipmentData, data));
    }

    /** `setSaturdayDelivery`. */
    method SetSaturdayDelivery(flag: Value)
      requires Valid()
      modifies this`storeOrderMessage
      ensures Valid()
      ensures storeOrderMessage == old(storeOrderMessage).(productAndServiceData :=
        old(storeOrderMessage.productAndServiceData)["saturdayDelivery" := flag])
    {
      storeOrderMessage := storeOrderMessage.(productAndServiceData :=
        storeOrderMessage.productAndServiceData["saturdayDelivery" := flag]);
    }

    /** `setGuarantee`. */
    method SetGuarantee(flag: Value)
      requires Valid()
      modifies this`storeOrderMessage
      ensures Valid()
      ensures storeOrderMessage == old(storeOrderMessage).(productAndServiceData :=
        old(storeOrderMessage.productAndServiceData)["guarantee" := flag])
    {
      storeOrderMessage := storeOrderMessage.(productAndServiceData :=
        storeOrderMessage.productAndServiceData["guarantee" := flag]);
    }

    /** `setSender`: see SenderData and SenderUpdateFields for what the merged sender holds. */
    method SetSender(data: Record) returns (r: Outcome)
      requires Valid()
      modifies this`storeOrderMessage
      ensures Valid()
      ensures r.Pass? <==> SenderUpdate(old(storeOrderMessage), data, authorisation.customerNumber).Ok?
      ensures r.Fail? ==> r.error == TypeError && storeOrderMessage == old(storeOrderMessage)
      ensures r.Pass? ==> storeOrderMessage == SenderUpdate(old(storeOrderMessage), data, authorisation.customerNumber).value
    {
      var sender := SenderData(data, authorisation.customerNumber);
      if sender.Err? {
        return Fail(sender.error);
      }
      var merged := MergeParty(storeOrderMessage, "sender", sender.value);
      if merged.Err? {
        return Fail(merged.error);
      }
      storeOrderMessage := merged.value;
      r := Pass;
    }

    /** `setReceiver`: the caller's entries are merged into the recipient. */
    method SetReceiver(data: Record) returns (r: Outcome)
      requires Valid()
      modifies this`storeOrderMessage
      ensures Valid()
      ensures r.Pass? <==> MergeParty(old(storeOrderMessage), "recipient", data).Ok?
      ensures r.Fail? ==> r.error == TypeError && storeOrderMessage == old(storeOrderMessage)
      ensures r.Pass? ==>
        && storeOrderMessage == MergeParty(old(storeOrderMessage), "recipient", data).value
        && storeOrderMessage.generalShipmentData["recipient"].m ==
           ArrayMerge(old(storeOrderMessage.generalShipmentData["recipient"].m), data)
    {
      var merged := MergeParty(storeOrderMessage, "recipient", data);
      if merged.Err? {
        return Fail(merged.error);
      }
      storeOrderMessage := merged.value;
      r := Pass;
    }

    /** `setPrintOptions`. */
    method SetPrintOptions(options: Record)
      requires Valid()
      modifies this`storeOrderMessage
      ensures Valid()
      ensures storeOrderMessage == old(storeOrderMessage).(printOptions :=
        ArrayMerge(old(storeOrderMessage.printOptions), options))
    {
      storeOrderMessage := storeOrderMessage.(printOptions := ArrayMerge(storeOrderMessage.printOptions, options));
    }

    /** `setTrackingLanguage`. */
    method SetTrackingLanguage(language: string)
      modifies this`trackingLanguage
      ensures trackingLanguage == Some(language)
    {
      trackingLanguage := Some(language);
    }

    /** `getLabels`. */
    method GetLabels() returns (r: Option<seq<byte>>)
      ensures r == labelPdf
    {
      r := labelPdf;
    }

    /**
     * `submit`, given what the remote call did. A refused pre-call check or a
     * fault leaves everything as it was; otherwise the label is replaced and
     * one airway bill per returned label number is appended.
     */
    method Submit(reply: StoreOrdersReply) returns (r: Outcome)
      requires Valid()
      modifies this`labelPdf, this`airWayBills
      ensures r.Pass? ==> |storeOrderMessage.parcels.items| > 0
      ensures SubmitCheck(storeOrderMessage).Fail? ==> r == SubmitCheck(storeOrderMessage)
      ensures SubmitCheck(storeOrderMessage) == Pass ==> r == ReplyOutcome(reply)
      ensures r.Fail? ==> labelPdf == old(labelPdf) && airWayBills == old(airWayBills)
      ensures r.Pass? ==> reply.Reply? && labelPdf == Some(reply.parcellabelsPDF)
      ensures r.Pass? ==>
        airWayBills == old(airWayBills) + AirWayBillsFor(reply.parcelLabelNumbers, LanguageText(trackingLanguage))
    {
      r := SubmitCheck(storeOrderMessage);
      if r.Fail? {
        return;
      }
      CountZeroIffNoParcels(storeOrderMessage);
      r := ReplyOutcome(reply);
      if r.Fail? {
        return;
      }
      labelPdf := Some(reply.parcellabelsPDF);
      AppendAirWayBills(reply.parcelLabelNumbers, LanguageText(trackingLanguage));
    }

    /** The `foreach` of `submit`: one airway bill per returned label number, appended in order. */
    method AppendAirWayBills(numbers: seq<string>, lang: string)
      modifies this`airWayBills
      ensures airWayBills == old(airWayBills) + AirWayBillsFor(numbers, lang)
    {
      for i := 0 to |numbers|
        invariant airWayBills == old(airWayBills) + AirWayBillsFor(numbers[..i], lang)
      {
        AirWayBillsStep(numbers, i, lang);
        airWayBills := airWayBills + [AirWayBill(numbers[i], TrackingLink(numbers[i], lang))];
      }
      assert numbers[..|numbers|] == numbers;
    }
  }
}
