/**
 * The status lookup of the DPD client: which parcel-lifecycle service it
 * talks to, and how it turns the service's tracking data (or the fault it
 * raised) into the parcel's current status.
 */
module DpdParcelStatus {
  import opened Wrappers
  import opened PhpValues
  import opened DpdAuthorisation

  const TEST_PARCELSTATUS_WSDL: string := "https://shipperadmintest.dpd.nl/PublicAPI/WSDL/ParcelLifecycleServiceV20.wsdl"
  const PARCELSTATUS_WSDL: string := "https://wsshipper.dpd.nl/soap/WSDL/ParcelLifecycleServiceV20.wsdl"

  /** Fault strings that are answered with an empty status instead of being re-raised. */
  const TOLERATED_FAULTS: seq<string> := [
    "Service Unavailable",
    "Fault occured: Fault occured",
    "Fault occured: The element 'authentication' in namespace"
  ]

  datatype Environment = Environment(wsdlCache: bool, parcelStatusWsdl: string)

  /** The environment the constructor sets up: the staging service exactly when the authorisation says so. */
  function NewEnvironment(auth: Authorisation, wsdlCache: bool): (e: Environment)
    ensures e.wsdlCache == wsdlCache
    ensures e.parcelStatusWsdl == TEST_PARCELSTATUS_WSDL <==> auth.staging
    ensures e.parcelStatusWsdl == PARCELSTATUS_WSDL <==> !auth.staging
  {
    Environment(wsdlCache, if auth.staging then TEST_PARCELSTATUS_WSDL else PARCELSTATUS_WSDL)
  }

  /**
   * One element of `trackingresult->statusInfo`: either something that is
   * not an object, or an object whose `isCurrentStatus` property may be
   * missing (None). `labelContent` and `descriptionContent` hold the already unwrapped
   * `label->content` and `description->content->content`.
   */
  datatype StatusInfo =
    | NotAnObject
    | StatusObject(isCurrentStatus: Option<Value>, status: Value, labelContent: Value, descriptionContent: Value)

  /**
   * `trackingresult`: empty when it casts to an empty array, otherwise the
   * values the `foreach` over `statusInfo` visits, in order. For a list of
   * status entries these are the entries.
   */
  datatype TrackingResult = EmptyResult | Tracking(statusInfo: seq<StatusInfo>)

  /** What the remote `getTrackingData` call did: raised a SOAP fault, or answered. */
  datatype TrackingCall = Fault(faultstring: string) | Answer(trackingresult: TrackingResult)

  datatype CurrentStatus = CurrentStatus(statusCode: Value, statusLabel: Value, statusDescription: Value)

  /**
   * The four ways `getStatus` ends: the current status, an empty array,
   * falling off the end of the function (PHP null), or re-raising the fault.
   */
  datatype StatusOutcome = Status(current: CurrentStatus) | EmptyArray | NoResult | Rethrow(faultstring: string)

  /** An object whose `isCurrentStatus` property exists and is truthy. */
  predicate IsCurrent(e: StatusInfo) {
    e.StatusObject? && e.isCurrentStatus.Some? && Truthy(e.isCurrentStatus.value)
  }

  /** The index of the first current entry, if there is one. */
  function FirstCurrent(entries: seq<StatusInfo>): (r: Option<nat>)
    ensures r.Some? ==> r.value < |entries| && IsCurrent(entries[r.value])
    ensures r.Some? ==> forall j :: 0 <= j < r.value ==> !IsCurrent(entries[j])
    ensures r.None? <==> forall j :: 0 <= j < |entries| ==> !IsCurrent(entries[j])
  {
    if entries == [] then None
    else if IsCurrent(entries[0]) then Some(0)
    else
      match FirstCurrent(entries[1..])
      case None => None
      case Some(k) => Some(k + 1)
  }

  /** Entries after the first current one never matter. */
  lemma {:induction false} FirstCurrentIgnoresTail(s: seq<StatusInfo>, t: seq<StatusInfo>)
    requires FirstCurrent(s).Some?
    ensures FirstCurrent(s + t) == FirstCurrent(s)
  {
    if !IsCurrent(s[0]) {
      assert (s + t)[1..] == s[1..] + t;
      FirstCurrentIgnoresTail(s[1..], t);
    }
  }

  function StatusOf(e: StatusInfo): CurrentStatus
    requires e.StatusObject?
  {
    CurrentStatus(e.status, e.labelContent, e.descriptionContent)
  }

  /** `getStatus`, once the remote call has been made. */
  function GetStatus(call: TrackingCall): (r: StatusOutcome)
    ensures call.Fault? ==> (r == EmptyArray <==> call.faultstring in TOLERATED_FAULTS)
    ensures call.Fault? && call.faultstring !in TOLERATED_FAULTS ==> r == Rethrow(call.faultstring)
    ensures r.Rethrow? ==> call.Fault? && r.faultstring == call.faultstring
    ensures call.Answer? && call.trackingresult.EmptyResult? ==> r == EmptyArray
    ensures call.Answer? && call.trackingresult.Tracking? ==>
      var es := call.trackingresult.statusInfo;
      (r == NoResult <==> forall j :: 0 <= j < |es| ==> !IsCurrent(es[j])) &&
      (r != NoResult ==>
        exists i :: 0 <= i < |es| && IsCurrent(es[i]) && r == Status(StatusOf(es[i])) &&
          forall j :: 0 <= j < i ==> !IsCurrent(es[j]))
  {
    match call
    case Fault(f) => if f in TOLERATED_FAULTS then EmptyArray else Rethrow(f)
    case Answer(EmptyResult) => EmptyArray
    case Answer(Tracking(es)) =>
      match FirstCurrent(es)
      case None => NoResult
      case Some(i) => Status(StatusOf(es[i]))
  }

  /** Entries past the first current one, however many, leave the status unchanged. */
  lemma ExtraEntriesKeepStatus(s: seq<StatusInfo>, t: seq<StatusInfo>)
    requires GetStatus(Answer(Tracking(s))).Status?
    ensures GetStatus(Answer(Tracking(s + t))) == GetStatus(Answer(Tracking(s)))
  {
    FirstCurrentIgnoresTail(s, t);
  }
}
