/**
  Report merging (src/solarflow_ble/models.py): partial reports folded into a
  typed state, a `raw` map and an ordered list of battery packs.
 */
module Reports {
  import opened Wrappers
  import opened Json

  /** The `method` of a message; a list or object as method cannot be hashed. */
  datatype Method = Blespp | GetInfoRsp | ReadReply | Report | ErrorReport | OtherMethod | UnhashableMethod

  /** The top-level keys the client reads; an absent key reads as null. */
  datatype Message = Message(
    kind: Method,
    messageId: Json,
    deviceId: Json,
    productKey: Json,
    properties: Json,
    packData: Json)

  /** The typed report fields, in the order of the source's field table. */
  datatype Field =
    | PackInputPower | OutputPackPower | OutputHomePower | RemainOutTime | DataReady | AcMode
    | InputLimit | OutputLimit | PackState | AcStatus | ElectricLevel | GridState | FaultLevel
    | SmartMode | ChargeMaxLimit | SocLimit | MinSoc | SocSet | GridInputPower | SolarInputPower
    | SolarPower1 | SolarPower2 | SolarPower3 | SolarPower4 | SolarPower5 | SolarPower6
    | GridOffPower | SocStatus | HyperTemperature

  function WireKey(f: Field): string {
    match f
    case PackInputPower => "packInputPower"
    case OutputPackPower => "outputPackPower"
    case OutputHomePower => "outputHomePower"
    case RemainOutTime => "remainOutTime"
    case DataReady => "dataReady"
    case AcMode => "acMode"
    case InputLimit => "inputLimit"
    case OutputLimit => "outputLimit"
    case PackState => "packState"
    case AcStatus => "acStatus"
    case ElectricLevel => "electricLevel"
    case GridState => "gridState"
    case FaultLevel => "faultLevel"
    case SmartMode => "smartMode"
    case ChargeMaxLimit => "chargeMaxLimit"
    case SocLimit => "socLimit"
    case MinSoc => "minSoc"
    case SocSet => "socSet"
    case GridInputPower => "gridInputPower"
    case SolarInputPower => "solarInputPower"
    case SolarPower1 => "solarPower1"
    case SolarPower2 => "solarPower2"
    case SolarPower3 => "solarPower3"
    case SolarPower4 => "solarPower4"
    case SolarPower5 => "solarPower5"
    case SolarPower6 => "solarPower6"
    case GridOffPower => "gridOffPower"
    case SocStatus => "socStatus"
    case HyperTemperature => "hyperTmp"
  }

  const REPORT_KEYS: set<string> := set f: Field | true :: WireKey(f)

  datatype PackField =
    | PackType | SocLevel | PackStatus | Power | MaxTemp | TotalVoltage
    | BatteryCurrent | MaxVoltage | MinVoltage | SoftwareVersion | HeatState

  function PackKey(f: PackField): string {
    match f
    case PackType => "packType"
    case SocLevel => "socLevel"
    case PackStatus => "state"
    case Power => "power"
    case MaxTemp => "maxTemp"
    case TotalVoltage => "totalVol"
    case BatteryCurrent => "batcur"
    case MaxVoltage => "maxVol"
    case MinVoltage => "minVol"
    case SoftwareVersion => "softVersion"
    case HeatState => "heatState"
  }

  datatype BatteryPack = BatteryPack(serial: string, values: map<PackField, int>)

  datatype SolarFlowState = SolarFlowState(
    typed: map<Field, int>,
    batteryPower: Option<int>,
    deviceId: Option<string>,
    productKey: Option<string>,
    packs: seq<BatteryPack>,
    raw: Option<map<string, Json>>)

  const EMPTY_STATE: SolarFlowState := SolarFlowState(map[], None, None, None, [], None)

  /** A typed field of the state, None until an integer was reported for it. */
  function Typed(s: SolarFlowState, f: Field): Option<int> {
    if f in s.typed then Some(s.typed[f]) else None
  }

  // ---- Packs ------------------------------------------------------------

  /** The entry of a serial in an insertion-ordered dict of packs. */
  function Find(known: seq<BatteryPack>, serial: string): Option<BatteryPack> {
    if known == [] then None
    else if known[0].serial == serial then Some(known[0])
    else Find(known[1..], serial)
  }

  /** Assignment into the dict: in place for a known serial, else at the end. */
  function Store(known: seq<BatteryPack>, pack: BatteryPack): seq<BatteryPack> {
    if known == [] then [pack]
    else if known[0].serial == pack.serial then [pack] + known[1..]
    else [known[0]] + Store(known[1..], pack)
  }

  /** A raw pack entry the merge reads: an object whose `sn` is a string. */
  predicate IsPackEntry(raw: Json) {
    raw.Obj? && "sn" in raw.fields && raw.fields["sn"].Str?
  }

  function PackInts(fields: map<string, Json>): map<PackField, int> {
    map f: PackField | PackKey(f) in fields && fields[PackKey(f)].Int? :: fields[PackKey(f)].i
  }

  /** One iteration of the merge loop. */
  function MergeEntry(known: seq<BatteryPack>, raw: Json): seq<BatteryPack> {
    if !IsPackEntry(raw) then known
    else
      var serial := raw.fields["sn"].s;
      var current := Find(known, serial).GetOr(BatteryPack(serial, map[]));
      Store(known, current.(values := current.values + PackInts(raw.fields)))
  }

  function MergeEntries(known: seq<BatteryPack>, raws: seq<Json>): seq<BatteryPack> {
    if raws == [] then known
    else MergeEntry(MergeEntries(known, raws[..|raws| - 1]), raws[|raws| - 1])
  }

  /** The dict comprehension that keys the known packs by serial. */
  function ByOwnSerial(packs: seq<BatteryPack>): seq<BatteryPack> {
    if packs == [] then [] else Store(ByOwnSerial(packs[..|packs| - 1]), packs[|packs| - 1])
  }

  function MergedPacks(packs: seq<BatteryPack>, raws: seq<Json>): seq<BatteryPack> {
    MergeEntries(ByOwnSerial(packs), raws)
  }

  // ---- Reports ----------------------------------------------------------

  function TypedInts(properties: map<string, Json>): map<Field, int> {
    map f: Field | WireKey(f) in properties && properties[WireKey(f)].Int? :: properties[WireKey(f)].i
  }

  function Known(properties: map<string, Json>): map<string, Json> {
    map key | key in properties && key in REPORT_KEYS :: properties[key]
  }

  function Derived(typed: map<Field, int>, otherwise: Option<int>): Option<int> {
    if PackInputPower in typed && OutputPackPower in typed
    then Some(typed[OutputPackPower] - typed[PackInputPower])
    else otherwise
  }

  function ApplyProperties(s: SolarFlowState, m: Message): SolarFlowState
    requires m.properties.Obj?
  {
    var typed := s.typed + TypedInts(m.properties.fields);
    s.(typed := typed,
       batteryPower := Derived(typed, s.batteryPower),
       deviceId := if m.deviceId.Str? then Some(m.deviceId.s) else s.deviceId,
       productKey := if m.productKey.Str? then Some(m.productKey.s) else s.productKey,
       raw := Some(s.raw.GetOr(map[]) + Known(m.properties.fields)))
  }

  /** `SolarFlowState.with_report`. */
  function WithReport(s: SolarFlowState, m: Message): (r: SolarFlowState)
    ensures r.deviceId == if m.properties.Obj? && m.deviceId.Str? then Some(m.deviceId.s) else s.deviceId
  {
    var s1 := if m.properties.Obj? then ApplyProperties(s, m) else s;
    if m.packData.Arr? then s1.(packs := MergedPacks(s.packs, m.packData.items)) else s1
  }

  function Folded(s: SolarFlowState, reports: seq<Message>): SolarFlowState {
    if reports == [] then s
    else WithReport(Folded(s, reports[..|reports| - 1]), reports[|reports| - 1])
  }
}
