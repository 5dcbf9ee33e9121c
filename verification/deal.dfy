/**
 * The deal normaliser: a host load-event payload becomes either `null` or a
 * canonical deal record in which every field is coerced from its own host
 * field, independently of all the others.
 */
module Deals {
  import opened Wrappers
  import opened JsValues
  import opened Coercion

  /** The host fields read with `safeString`. */
  datatype StringField =
    | Id
    | DealName
    | Currency
    | ExchangeRate
    | Stage
    | ClosingDate
  {
    /** The host field name. */
    function Key(): string {
      match this
      case Id => "id"
      case DealName => "Deal_Name"
      case Currency => "Currency"
      case ExchangeRate => "Exchange_Rate"
      case Stage => "Stage"
      case ClosingDate => "Closing_Date"
    }

    /** The value used when no string can be derived. */
    function Default(): string {
      match this
      case Id => "unknown"
      case DealName => "Unknown Deal"
      case Currency => "USD"
      case ExchangeRate => "1"
      case Stage => "Unknown"
      case ClosingDate => ""
    }
  }

  /** The host fields read with `safeNumber`, all defaulting to 0. */
  datatype NumberField =
    | Amount
    | Probability
  {
    /** The host field name. */
    function Key(): string {
      match this
      case Amount => "Amount"
      case Probability => "Probability"
    }
  }

  /** The host fields read with `safeUser`. */
  datatype UserField =
    | AccountName
    | Owner
    | CreatedBy
    | ModifiedBy
    | PartnerVendor1
    | PartnerVendor2
  {
    /** The host field name. */
    function Key(): string {
      match this
      case AccountName => "Account_Name"
      case Owner => "Owner"
      case CreatedBy => "Created_By"
      case ModifiedBy => "Modified_By"
      case PartnerVendor1 => "Partner_Vendor_1"
      case PartnerVendor2 => "Partner_Vendor_2"
    }

    /** The name used when no name can be derived. */
    function Default(): string {
      match this
      case AccountName => "Unknown Account"
      case Owner => "Unknown Owner"
      case CreatedBy => "Unknown Creator"
      case ModifiedBy => "Unknown Modifier"
      case PartnerVendor1 => "Unknown"
      case PartnerVendor2 => "Unknown"
    }
  }

  /** The host fields read with `safeStringOrNull`. */
  datatype TextField =
    | ContractIdAdivbNumber
    | PmRequestId
    | ContractSignedDate
    | CounterSignedDate
    | OrderHandoffDate
    | ProjectCompletedDate
    | ProjectCompleted
    | ServiceStreet
    | ServiceCity
    | ServiceState
    | ServiceZipCode
    | Timezone
    | Street
    | City
    | State
    | ZipCode1
    | CircuitId
    | Mcn
    | MacP
    | SubAccountId
    | FederalTaxId
    | InternetProviderAndSpeedFreeField
    | WirelessCarrierAndNumberOfLinesFreeField
    | PhoneProviderAndNumberOfLinesFreeField
    | PhoneSystemMakeModel
    | DealDepartment
    | DealType
    | DealFocus
    | LeadType
    | LeadSource
    | ProductType
    | DataInterfaceType
    | CurentServices
    | TotalWireline
    | Managed
    | VoiceHandoff
    | Description
    | LayoutName
    | Layout
    | ValidatedBy
    | ProcessedBy
    | OrderValidationLink
    | ZohoworkdriveforcrmWorkdriveFolderUrl
    | SalesTraction
    | ForecastCategoryS
    | AccountNumber
    | Campaign
    | EmailMarketingStatus
    | WithCallPaths
    | PreviousDealDisconnect
    | ReasonForClosedLost1
  {
    /** The host field name. */
    function Key(): string {
      match this
      case ContractIdAdivbNumber => "Contract_ID_ADIVB_Number"
      case PmRequestId => "PM_Request_Id"
      case ContractSignedDate => "Contract_Signed_Date"
      case CounterSignedDate => "Counter_Signed_Date"
      case OrderHandoffDate => "Order_Handoff_Date"
      case ProjectCompletedDate => "Project_Completed_Date"
      case ProjectCompleted => "Project_Completed"
      case ServiceStreet => "Service_Street"
      case ServiceCity => "Service_City"
      case ServiceState => "Service_State"
      case ServiceZipCode => "Service_Zip_Code"
      case Timezone => "Timezone"
      case Street => "Street"
      case City => "City"
      case State => "State"
      case ZipCode1 => "Zip_Code1"
      case CircuitId => "Circuit_Id"
      case Mcn => "MCN"
      case MacP => "MAC_P"
      case SubAccountId => "Sub_Account_ID"
      case FederalTaxId => "Federal_Tax_ID"
      case InternetProviderAndSpeedFreeField => "Internet_Provider_and_Speed_Free_Field"
      case WirelessCarrierAndNumberOfLinesFreeField => "Wireless_Carrier_and_Number_of_Lines_Free_Field"
      case PhoneProviderAndNumberOfLinesFreeField => "Phone_Provider_and_Number_of_Lines_Free_Field"
      case PhoneSystemMakeModel => "Phone_System_Make_Model"
      case DealDepartment => "Deal_Department"
      case DealType => "Deal_Type"
      case DealFocus => "Deal_Focus"
      case LeadType => "Lead_Type"
      case LeadSource => "Lead_Source"
      case ProductType => "Product_Type"
      case DataInterfaceType => "Data_Interface_Type"
      case CurentServices => "Curent_Services"
      case TotalWireline => "Total_Wireline"
      case Managed => "Managed"
      case VoiceHandoff => "Voice_Handoff"
      case Description => "Description"
      case LayoutName => "Layout_Name"
      case Layout => "Layout"
      case ValidatedBy => "Validated_By"
      case ProcessedBy => "Processed_By"
      case OrderValidationLink => "Order_Validation_Link"
      case ZohoworkdriveforcrmWorkdriveFolderUrl => "zohoworkdriveforcrm__Workdrive_Folder_URL"
      case SalesTraction => "Sales_Traction"
      case ForecastCategoryS => "Forecast_Category__s"
      case AccountNumber => "Account_Number"
      case Campaign => "Campaign"
      case EmailMarketingStatus => "Email_Marketing_Status"
      case WithCallPaths => "With_Call_Paths"
      case PreviousDealDisconnect => "Previous_Deal_Disconnect"
      case ReasonForClosedLost1 => "Reason_for_Closed_Lost1"
    }
  }

  /** The host fields read with `Boolean(...)`. */
  datatype FlagField =
    | ContractProduct
    | GroupProduct
    | Locked
    | IsDisconnected
    | TestingTrigger
    | DeveloperSpace
    | PortingMovingTNs
  {
    /** The host field name. */
    function Key(): string {
      match this
      case ContractProduct => "Contract_Product"
      case GroupProduct => "Group_Product"
      case Locked => "Locked"
      case IsDisconnected => "Is_Disconnected"
      case TestingTrigger => "Testing_trigger"
      case DeveloperSpace => "Developer_Space"
      case PortingMovingTNs => "Porting_Moving_TNs"
    }
  }

  /**
   * The canonical deal, its fields grouped by the coercion that produces
   * them: `strings(DealName)` is the source's `Deal_Name`, `users(Owner)`
   * its `Owner`, and so on; `subform` is `Subform_1`. Each group is total over
   * its field names, so no field of the record can be missing.
   */
  datatype Deal = Deal(
    strings: StringField -> string,
    numbers: NumberField -> Num,
    users: UserField -> User,
    texts: TextField -> Option<string>,
    flags: FlagField -> bool,
    subform: map<string, JsValue>)

  /** Builds the record from the payload's `data` value, one coercion per field. */
  function Normalise(rt: Runtime, data: JsValue): (d: Deal)
    ensures forall f: StringField :: d.strings(f) == SafeString(rt, Get(data, f.Key()), f.Default())
    ensures forall f: NumberField :: d.numbers(f) == SafeNumber(rt, Get(data, f.Key()), Fin(0.0))
    ensures forall f: UserField :: d.users(f) == SafeUser(rt, Get(data, f.Key()), f.Default())
    ensures forall f: TextField :: d.texts(f) == SafeStringOrNull(rt, Get(data, f.Key()))
    ensures forall f: FlagField :: d.flags(f) == Truthy(Get(data, f.Key()))
    ensures d.subform == SafeSubform(Get(data, "Subform_1"))
  {
    Deal((f: StringField) => SafeString(rt, Get(data, f.Key()), f.Default()),
         (f: NumberField) => SafeNumber(rt, Get(data, f.Key()), Fin(0.0)),
         (f: UserField) => SafeUser(rt, Get(data, f.Key()), f.Default()),
         (f: TextField) => SafeStringOrNull(rt, Get(data, f.Key())),
         (f: FlagField) => Truthy(Get(data, f.Key())),
         SafeSubform(Get(data, "Subform_1")))
  }

  /**
   * `parseZohoDataManually`: `null` for a falsy payload or a payload whose
   * `data` is falsy or not of type object (arrays pass); otherwise a record
   * built from `data` with no further way to fail.
   */
  function ParseDeal(rt: Runtime, payload: JsValue): (r: Option<Deal>)
    ensures r.None? <==> !Truthy(payload) || !(Get(payload, "data").JObj? || Get(payload, "data").JArr?)
    ensures r.Some? ==> r.value == Normalise(rt, Get(payload, "data"))
  {
    if !Truthy(payload) then None
    else
      var data := Get(payload, "data");
      if !Truthy(data) || !TypeofObject(data) then None
      else Some(Normalise(rt, data))
  }

  /**
   * A payload whose `data` has no own keys (`{data: {}}`, or an array `data`)
   * parses to a record in which every field takes its documented default:
   * the sentinel strings, 0, the default user, `null` and `false`.
   */
  lemma EmptyDataDefaults(rt: Runtime, payload: JsValue)
    requires Truthy(payload)
    requires Get(payload, "data") == JObj(map[]) || Get(payload, "data").JArr?
    ensures ParseDeal(rt, payload).Some?
    ensures var d := ParseDeal(rt, payload).value;
      && (forall f: StringField :: d.strings(f) == f.Default())
      && (forall f: NumberField :: d.numbers(f) == Fin(0.0))
      && (forall f: UserField :: d.users(f) == User(f.Default(), "unknown"))
      && (forall f: TextField :: d.texts(f) == None)
      && (forall f: FlagField :: !d.flags(f))
      && d.subform == map[]
  {
    var data := Get(payload, "data");
    assert forall key :: Get(data, key) == JUndefined;
    assert ParseDeal(rt, payload) == Some(Normalise(rt, data));
    StringDefaults(rt, data);
    NumberDefaults(rt, data);
    UserDefaults(rt, data);
    TextDefaults(rt, data);
    FlagDefaults(rt, data);
  }

  lemma StringDefaults(rt: Runtime, data: JsValue)
    requires forall key :: Get(data, key) == JUndefined
    ensures forall f: StringField :: Normalise(rt, data).strings(f) == f.Default()
  {
  }

  lemma NumberDefaults(rt: Runtime, data: JsValue)
    requires forall key :: Get(data, key) == JUndefined
    ensures forall f: NumberField :: Normalise(rt, data).numbers(f) == Fin(0.0)
    ensures Normalise(rt, data).subform == map[]
  {
  }

  lemma UserDefaults(rt: Runtime, data: JsValue)
    requires forall key :: Get(data, key) == JUndefined
    ensures forall f: UserField :: Normalise(rt, data).users(f) == User(f.Default(), "unknown")
  {
  }

  lemma TextDefaults(rt: Runtime, data: JsValue)
    requires forall key :: Get(data, key) == JUndefined
    ensures forall f: TextField :: Normalise(rt, data).texts(f) == None
  {
  }

  lemma FlagDefaults(rt: Runtime, data: JsValue)
    requires forall key :: Get(data, key) == JUndefined
    ensures forall f: FlagField :: !Normalise(rt, data).flags(f)
  {
  }

  /**
   * No cross-field logic: each field of the record depends only on the host
   * field it is read from, so two `data` values that agree on a host field
   * give records that agree on the field read from it.
   */
  lemma FieldsAreIndependent(rt: Runtime, a: JsValue, b: JsValue)
    ensures forall f: StringField :: Get(a, f.Key()) == Get(b, f.Key()) ==>
      Normalise(rt, a).strings(f) == Normalise(rt, b).strings(f)
    ensures forall f: NumberField :: Get(a, f.Key()) == Get(b, f.Key()) ==>
      Normalise(rt, a).numbers(f) == Normalise(rt, b).numbers(f)
    ensures forall f: UserField :: Get(a, f.Key()) == Get(b, f.Key()) ==>
      Normalise(rt, a).users(f) == Normalise(rt, b).users(f)
    ensures forall f: TextField :: Get(a, f.Key()) == Get(b, f.Key()) ==>
      Normalise(rt, a).texts(f) == Normalise(rt, b).texts(f)
    ensures forall f: FlagField :: Get(a, f.Key()) == Get(b, f.Key()) ==>
      Normalise(rt, a).flags(f) == Normalise(rt, b).flags(f)
    ensures Get(a, "Subform_1") == Get(b, "Subform_1") ==> Normalise(rt, a).subform == Normalise(rt, b).subform
  {
    StringsIndependent(rt, a, b);
    NumbersIndependent(rt, a, b);
    UsersIndependent(rt, a, b);
    TextsIndependent(rt, a, b);
    FlagsIndependent(rt, a, b);
  }

  lemma StringsIndependent(rt: Runtime, a: JsValue, b: JsValue)
    ensures forall f: StringField :: Get(a, f.Key()) == Get(b, f.Key()) ==>
      Normalise(rt, a).strings(f) == Normalise(rt, b).strings(f)
  {
  }

  lemma NumbersIndependent(rt: Runtime, a: JsValue, b: JsValue)
    ensures forall f: NumberField :: Get(a, f.Key()) == Get(b, f.Key()) ==>
      Normalise(rt, a).numbers(f) == Normalise(rt, b).numbers(f)
  {
  }

  lemma UsersIndependent(rt: Runtime, a: JsValue, b: JsValue)
    ensures forall f: UserField :: Get(a, f.Key()) == Get(b, f.Key()) ==>
      Normalise(rt, a).users(f) == Normalise(rt, b).users(f)
  {
  }

  lemma TextsIndependent(rt: Runtime, a: JsValue, b: JsValue)
    ensures forall f: TextField :: Get(a, f.Key()) == Get(b, f.Key()) ==>
      Normalise(rt, a).texts(f) == Normalise(rt, b).texts(f)
  {
  }

  lemma FlagsIndependent(rt: Runtime, a: JsValue, b: JsValue)
    ensures forall f: FlagField :: Get(a, f.Key()) == Get(b, f.Key()) ==>
      Normalise(rt, a).flags(f) == Normalise(rt, b).flags(f)
  {
  }

  /**
   * The record does not promise a non-empty id or name: a host string is kept
   * as it is, the empty string included, and only a value from which no
   * string can be derived falls back to the sentinel.
   */
  lemma EmptyStringsAreKept(rt: Runtime)
    ensures var d := Normalise(rt, JObj(map["id" := JStr(""), "Deal_Name" := JStr("")]));
      d.strings(Id) == "" && d.strings(DealName) == ""
  {
    var data := JObj(map["id" := JStr(""), "Deal_Name" := JStr("")]);
    assert Get(data, Id.Key()) == JStr("");
    assert Get(data, DealName.Key()) == JStr("");
  }
}
