# DPD shipment builder and parcel status, modelled in Dafny

This project models the local logic of a PHP client for the DPD parcel
carrier's SOAP services. Two parts are modelled:

- **The shipment builder** (`DPDShipment`). It holds one order message:
  print options, general shipment data with a sender and a recipient, a
  parcel list, and product and service flags. Callers add parcels, book the
  Predict notification service, and merge address data into the message.
  `submit` checks the order, sends it, and turns the returned parcel label
  numbers into airway bills with tracking links.
- **The current-status rule** (`DPDParcelStatus::getStatus`). It picks the
  current status out of the tracking data, or decides between an empty
  answer, no answer and re-raising the SOAP fault.

The builder is a Dafny class, `DpdShipment.Shipment`. Its fields are the
PHP object's: `storeOrderMessage`, `airWayBills`, `trackingLanguage` and the
label (`labelPdf`). Its methods update them in place, and each method's
postcondition gives the new state in terms of the old one and of the
specification functions beside the class. Those functions carry the
properties: the parcel checks, the volume encoding, the weight rounding,
predict normalisation, the sender merge, the pre-submit checks and the
tracking links. The status rule is pure, so it is modelled as functions.

Modules:

- `Wrappers`: `Option`.
- `PhpStrings`: the PHP string built-ins the client uses (`strtoupper`,
  `strtolower`, `str_pad`, integer to text), with their properties.
  `ctype_alpha` and `strtr` are in `DpdShipment`.
- `PhpValues`: PHP values (`null`, booleans, integers, strings, nested
  string-keyed arrays), plus `isset`, `empty`, string coercion and
  `array_merge`.
- `DpdAuthorisation`: the authorisation data the two services read.
- `DpdShipment`: the builder (`src/DPDShipment.php`).
- `DpdParcelStatus`: the status rule and the service choice
  (`src/DPDParcelStatus.php`).

Errors are values. `Outcome` is `Pass` or `Fail(error)`, and an error is
either a `DpdException` carrying the source's exact message or a PHP 8
`TypeError` (for example `strtoupper` on an array, or `array_merge` on a
sender that is no longer an array).

The remote calls are inputs. `Shipment.Submit` receives a
`StoreOrdersReply`, which is either a SOAP fault or an answer with an
optional fault message, the label bytes and the parcel label numbers.
`GetStatus` receives a `TrackingCall`, which is either a fault string or a
tracking result. The `dpd.*` configuration values and the e-mail validator
are given to the builder's constructor.

A note on the messages: the length and width checks reject values below 1,
although their messages say the minimum is 100. The model follows the code
and keeps the messages as written.

## Model

| member | source | states |
|---|---|---|
| `DpdShipment.ShipWsdl` | src/DPDShipment.php:48 | The test shipment service is chosen exactly when `staging` is set, and the production service otherwise. |
| `DpdShipment.Count` | src/DPDShipment.php:173 | `count()` of the parcel array is the number of parcels, plus one exactly when the `returns` entry is present. It is 0 exactly when there is neither. |
| `DpdShipment.Shipment.constructor` | src/DPDShipment.php:43-51 | Keeps the authorisation and cache flag, picks the service by `staging`, and starts with a fresh order, no airway bills, no label and no tracking language. |
| `DpdShipment.FreshGeneralData` | src/DPDShipment.php:66-104 | A new order's general shipment data has exactly six keys. `sendingDepot` is the token's depot. `product` and both `mpsCustomerReferenceNumber`s are null. The sender and recipient have every listed field, all null. |
| `DpdShipment.FreshOrder` | src/DPDShipment.php:59-113 | The new message has no parcels (count 0) and no predict. The print options are the configured paper format, printer language and start position. The general data has exactly six keys: `sendingDepot` (the token's depot), `product` and both `mpsCustomerReferenceNumber`s (null), and the sender and recipient, with every listed field null. The product data is `orderType` `consignment`, `guarantee` false and the configured `saturdayDelivery`. |
| `DpdShipment.Shipment.StartNewOrder` | src/DPDShipment.php:56-114 | Installs the fresh order and empties the airway bills. The label and the tracking language are left alone. |
| `DpdShipment.ParcelCheck` | src/DPDShipment.php:124-142 | Accepts exactly when all four keys are set and length, width and height are all at least 1. Otherwise it names the first failing check, in the order completeness, length, width, height, with that check's message. |
| `DpdShipment.DimensionText` | src/DPDShipment.php:144-146 | A dimension's text is all digits and at least 3 long, and it reads back as the dimension. It is exactly 3 long when the dimension is below 1000. From 100 on it has no leading zero. Together these fix the text as `str_pad`'s. |
| `DpdShipment.Volume` | src/DPDShipment.php:144-146 | The volume is all digits, at least 9 long, and exactly as long as the three padded dimensions together. |
| `DpdShipment.VolumeRoundTrip` | src/DPDShipment.php:144-146 | For dimensions below 1000 the volume is 9 characters. Characters 0-3, 3-6 and 6-9 read back as length, width and height. |
| `DpdShipment.VolumeKeepsAllDigits` | src/DPDShipment.php:144-146 | For any dimensions, each of the three consecutive parts reads back as its whole dimension. Nothing is truncated. |
| `DpdShipment.CeilDiv10` | src/DPDShipment.php:150 | The weight unit count r is the ceiling of weight/10: `10r - 10 < weight <= 10r`. |
| `DpdShipment.NewParcel` | src/DPDShipment.php:144-151 | The appended parcel's volume is `Volume` of the given length, width and height, a digit string of at least 9 characters. Its weight is the ceiling of the given weight divided by 10. |
| `DpdShipment.AppendKeepsWellFormed` | src/DPDShipment.php:148-156 | Appending such a parcel, and perhaps the `returns` entry, keeps the message well formed. The `returns` entry only ever sits next to at least one parcel. |
| `DpdShipment.CountZeroIffNoParcels` | src/DPDShipment.php:153-156 | In a well-formed message, `count()` of the parcel array (which counts the `returns` entry) is 0 exactly when no parcel was added. |
| `DpdShipment.Shipment.AddParcel` | src/DPDShipment.php:122-159 | Returns the `ParcelCheck` outcome. On failure the order is unchanged. On success exactly one parcel, `NewParcel(input)`, is appended, and the `returns` entry is set on the collection only when `return` is `true`. Nothing else in the message changes. |
| `DpdShipment.NormaliseLanguage` | src/DPDShipment.php:287-289 | A two-letter alphabetic string becomes its upper-case form. Any value `ctype_alpha` refuses is stored unchanged, including every other string, booleans, null and arrays. An integer letter code below 100 (65-90, 97-99) becomes its two-digit text. Codes from 100 to 122 stay unchanged, because their text has three characters. Whatever is changed ends up as two characters with no lower-case letter. |
| `DpdShipment.LetterCodeText` | src/DPDShipment.php:287-288 | The text of an integer letter code is two digits exactly below 100, and `strtoupper` leaves it unchanged. |
| `DpdShipment.NormaliseLanguageIdempotent` | src/DPDShipment.php:287-289 | Normalising a normalised language changes nothing. |
| `DpdShipment.CtypeAlpha` | src/DPDShipment.php:287 | A string passes exactly when it is non-empty and all ASCII letters. An integer passes exactly when it is the code of an ASCII letter. Any other value fails. |
| `DpdShipment.ChannelName` | src/DPDShipment.php:260 | Lower-casing the channel fails with a TypeError exactly for an array. Any other value gives `strtolower` of its PHP string conversion: a string gives its lower-case form, true gives "1", false and null give "", and an integer gives its digits. |
| `DpdShipment.PredictRecord` | src/DPDShipment.php:255-290 | A missing channel, value or language gives the (parcel-worded) incomplete message. An array channel gives a TypeError. The record is accepted exactly when the lower-cased channel is email with a valid address, or telephone or sms with a non-empty value. An unknown channel, an invalid e-mail and an empty telephone or sms value each give their own message. An accepted record has the same keys, channel code 1, 2 or 3 by channel, the normalised language, and every other entry unchanged. |
| `DpdShipment.ChannelCaseInsensitive` | src/DPDShipment.php:260-285 | Upper-casing the channel name never changes the outcome of the predict check. |
| `DpdShipment.NonStringChannelRefused` | src/DPDShipment.php:260-285 | A complete predict array whose channel is a boolean or an integer is refused with the channel-not-allowed message, because its text ("1", "" or digits) names no channel. |
| `DpdShipment.Shipment.SetPredict` | src/DPDShipment.php:252-291 | Succeeds exactly when `PredictRecord` accepts, and fails with its error otherwise. On success the record becomes the order's `predict` entry and nothing else changes. On failure nothing changes. |
| `DpdShipment.Shipment.GetParcelResponses` | src/DPDShipment.php:297-300 | Returns the airway bills collected so far. |
| `DpdShipment.Shipment.SetGeneralShipmentData` | src/DPDShipment.php:306-309 | The caller's entries replace those with the same key in the general shipment data. All other entries stay. |
| `DpdShipment.Shipment.SetSaturdayDelivery` | src/DPDShipment.php:315-318 | Only `saturdayDelivery` changes. |
| `DpdShipment.Shipment.SetGuarantee` | src/DPDShipment.php:324-327 | Only `guarantee` changes. |
| `DpdShipment.SenderData` | src/DPDShipment.php:335-336 | The array to merge has the caller's keys plus `customerNumber` and `city`. `customerNumber` is the authorisation's. `city` is `strtoupper` of the PHP string conversion of the caller's city: "" for null or a missing city, "1" or "" for a boolean, the digits for an integer. Every other entry is as given. An array city gives a TypeError. |
| `DpdShipment.SenderUpdate` | src/DPDShipment.php:333-338 | `setSender` succeeds exactly when the city is not an array and the sender is still an array, and otherwise fails with a TypeError. On success only the sender entry changes, and it becomes the old sender merged with `SenderData`. |
| `DpdShipment.MergeParty` | src/DPDShipment.php:344-347 | Merging into `sender` or `recipient` fails with a TypeError exactly when that entry is not an array. Otherwise it changes only that entry, which stays an array. |
| `DpdShipment.SenderUpdateFields` | src/DPDShipment.php:333-338 | After `setSender`, the sender's `customerNumber` is the authorisation's and its `city` has no lower-case letter. Keys the caller gave take the caller's values. Keys the caller did not give keep their previous values. |
| `DpdShipment.Shipment.SetSender` | src/DPDShipment.php:333-338 | Succeeds exactly when `SenderUpdate` does, and then the message becomes its result. A failure is a TypeError and leaves the message unchanged. |
| `DpdShipment.Shipment.SetReceiver` | src/DPDShipment.php:344-347 | On success the recipient becomes the old recipient merged with the caller's entries. A failure is a TypeError and leaves the message unchanged. |
| `DpdShipment.Shipment.SetPrintOptions` | src/DPDShipment.php:353-356 | The caller's entries are merged into the print options. |
| `DpdShipment.Shipment.SetTrackingLanguage` | src/DPDShipment.php:362-365 | Sets the tracking language. |
| `DpdShipment.Shipment.GetLabels` | src/DPDShipment.php:371-374 | Returns the label stored by the last successful submit (initially none). |
| `DpdShipment.SubmitCheck` | src/DPDShipment.php:167-176 | Passes exactly when (if predict is set, the upper-cased recipient country is one of the 25 listed) and the parcel count is positive. With predict set, an array country raises a TypeError and an unlisted one the destination message. Both take priority over the missing-parcel refusal. |
| `DpdShipment.OneParcelSubmits` | src/DPDShipment.php:167-176 | A fresh order with one accepted parcel and no predict passes the pre-submit checks. |
| `DpdShipment.ReplyOutcome` | src/DPDShipment.php:204-241 | A reply passes exactly when it is not a SOAP fault and reports no fault. A SOAP fault raises its detail message, or else its fault string. A reported fault raises `SOAP Fehler ` followed by its message. |
| `DpdShipment.Strtr` | src/DPDShipment.php:216-219 | `strtr` with the `:awb` and `:lang` pairs. Text with no ':' is copied unchanged, and an empty string stays empty. |
| `DpdShipment.StrtrTemplate` | src/DPDShipment.php:216-219 | For any template made of a placeholder-free prefix, `:lang`, a placeholder-free middle and `:awb`, one `strtr` pass gives prefix + language + middle + number. Replaced text is never rescanned. |
| `DpdShipment.TrackingLinkShape` | src/DPDShipment.php:216-219 | Replacing the placeholders in the template gives `https://tracking.dpd.de/parcelstatus?locale=` + language + `&query=` + number, for any number and language text. |
| `DpdShipment.TrackingLink` | src/DPDShipment.php:216-219 | The link is the template with `:lang` replaced by the language and `:awb` by the number. |
| `DpdShipment.AirWayBillsFor` | src/DPDShipment.php:213-221 | There is one airway bill per label number, in response order. Each carries its number and the tracking link for that number and language. |
| `DpdShipment.Shipment.Submit` | src/DPDShipment.php:164-243 | A failed pre-submit check is returned as is. After that, the reply's outcome is returned. A successful submit means the order holds at least one real parcel, not just the `returns` entry. Any failure leaves the label and airway bills unchanged. On success the label is the reply's PDF and the airway bills are the old ones followed by `AirWayBillsFor` of the returned numbers, so they grow across submits. |
| `DpdShipment.Shipment.AppendAirWayBills` | src/DPDShipment.php:212-221 | The airway bills become the old ones followed by one bill per label number, in order, each carrying its number and tracking link. |
| `PhpStrings.ToUpper` | src/DPDShipment.php:336 | Same length; no lower-case letter remains; other characters are untouched; case-insensitively equal to the input. |
| `PhpStrings.ToLower` | src/DPDShipment.php:260 | Same length; no upper-case letter remains; other characters are untouched; case-insensitively equal to the input. |
| `PhpStrings.LowerOfUpper` | src/DPDShipment.php:260 | Lower-casing after upper-casing equals lower-casing alone. |
| `PhpStrings.UpperKeepsAlpha` | src/DPDShipment.php:287-288 | Upper-casing an alphabetic string keeps it alphabetic and makes every letter upper case. |
| `PhpStrings.PadLeft` | src/DPDShipment.php:144-146 | The result has length max(n, \|s\|), ends with `s`, and is filled with the pad character before it. |
| `PhpStrings.NatToDecimal` | src/DPDShipment.php:144 | The text is non-empty, all digits, starts with '0' only for 0, and is one character long exactly below 10. |
| `PhpStrings.DecimalRoundTrip` | src/DPDShipment.php:144-146 | Reading back the decimal text of n gives n. |
| `PhpStrings.PadLeftValue` | src/DPDShipment.php:144-146 | Zero-padding digits keeps them digits and keeps their value. |
| `PhpStrings.IntToString` | src/DPDShipment.php:168 | A non-negative integer gives its decimal digits with no leading zero. A negative one gives '-' followed by the digits of its magnitude. The text reads back as the integer. |
| `PhpValues.StringOf` | src/DPDShipment.php:336 | Conversion fails (a TypeError) exactly for arrays. Strings are kept, null gives "", true gives "1", false gives "", and integers give their canonical decimal text. |
| `PhpValues.ArrayMerge` | src/DPDShipment.php:308 | The keys are the union of both. The second array's values win, and the first array's other values are kept. |
| `PhpValues.IsSet` | src/DPDShipment.php:124 | `isset` holds exactly for a present key whose value is not null. So false, 0, "", "0" and the empty array count as set. |
| `PhpValues.IsEmpty` | src/DPDShipment.php:270 | `empty` holds exactly for null, false, 0, "", "0" and the empty array. |
| `DpdParcelStatus.NewEnvironment` | src/DPDParcelStatus.php:21-28 | Keeps the cache flag. The test service is chosen exactly when `staging` is set, and the production service otherwise. |
| `DpdParcelStatus.FirstCurrent` | src/DPDParcelStatus.php:70-78 | Finds the index of an entry that is an object with a truthy `isCurrentStatus`, with no such entry before it. It finds nothing exactly when no entry qualifies. |
| `DpdParcelStatus.FirstCurrentIgnoresTail` | src/DPDParcelStatus.php:70-78 | Entries after the first current one never change the search's answer. |
| `DpdParcelStatus.GetStatus` | src/DPDParcelStatus.php:53-86 | A whitelisted fault string gives an empty array, and any other fault is re-raised unchanged. An empty tracking result gives an empty array. Otherwise the result is "no result" exactly when no entry is current, and else the status, label and description of the first current entry. |
| `DpdParcelStatus.ExtraEntriesKeepStatus` | src/DPDParcelStatus.php:70-78 | Adding entries after a found current status leaves the reported status unchanged. |

## Left out

- The remote calls are left out: the login, `storeOrders` and `getTrackingData`. So are the SOAP client, its header and the WSDL cache options. Their results are inputs, and the `wsdlCache` flag is only stored.
- `src/DPDAuthorisation.php` is not part of this model. The builder and the status rule receive its result: the staging flag, the customer number and the token's depot.
- Logging and the tracing output are not modelled, because they only write to the log.
- The `dpd.*` configuration values are constructor parameters, not global lookups.
- `filter_var(..., FILTER_VALIDATE_EMAIL)` is not defined here. The builder receives it as the function `validEmail`.
- Dimensions and weight are integers. Fractional values and numeric strings are not modelled, and neither is PHP's 64-bit integer overflow.
- `DpdShipment.DimensionText`: `ceil` returns a float, and with PHP's default precision of 14 its text switches to exponent form (`1.0E+14`) from 10^14 on. The model writes every dimension in plain digits, so for dimensions of 10^14 and more its volume differs from PHP's.
- Arrays are unordered maps with string keys. PHP's key order, and the renumbering `array_merge` applies to integer keys, are not modelled.
- A single `parcelInformation` object is given as a one-element list of label numbers. PHP's separate branch for it (src/DPDShipment.php:223-231) appends the same one airway bill.
- `DpdParcelStatus.GetStatus` does not derive the visited values from a lone `statusInfo` object. Its input is the sequence of values the `foreach` visits. For a list these are the entries. For a lone object PHP walks the object's property values instead, none of which is a status entry, so `getStatus` finds nothing and returns null. A caller must therefore pass those property values, not a one-element list holding the object; with such a list the model would report that entry's status where PHP returns null.
- `DpdShipment.RecipientCountry`: a recipient that is no longer an array is read as having no country, so submit then refuses the predict destination. PHP reads a string offset or raises an error instead.
- `DpdShipment.Shipment.SetTrackingLanguage` takes a string only. PHP accepts any value, and `strtr` turns it into text.
- `DpdParcelStatus.GetStatus` takes the status label and description as values already read. The nested `label->content` and `description->content->content` property reads, and the warnings for missing properties, are not modelled.
- The `client` property the builder keeps after a submit is not modelled, because only logging reads it.
