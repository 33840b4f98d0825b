/** Folding reports is last-writer-wins; merging packs is a stable, idempotent upsert. */
module ReportTheorems {
  import opened Wrappers
  import opened Json
  import opened Reports

  // ---- The typed fields and `raw` ---------------------------------------

  /** The integer a report carries for a field; booleans and strings do not count. */
  function IntIn(m: Message, f: Field): Option<int> {
    if m.properties.Obj? && WireKey(f) in m.properties.fields && m.properties.fields[WireKey(f)].Int?
    then Some(m.properties.fields[WireKey(f)].i) else None
  }

  function ValueIn(m: Message, key: string): Option<Json> {
    if m.properties.Obj? && key in m.properties.fields then Some(m.properties.fields[key]) else None
  }

  /** The last integer reported for a field. */
  function LastInt(reports: seq<Message>, f: Field): Option<int> {
    if reports == [] then None
    else
      var last := reports[|reports| - 1];
      if IntIn(last, f).Some? then IntIn(last, f) else LastInt(reports[..|reports| - 1], f)
  }

  /** The last value of any type reported for a key. */
  function LastValue(reports: seq<Message>, key: string): Option<Json> {
    if reports == [] then None
    else
      var last := reports[|reports| - 1];
      if ValueIn(last, key).Some? then ValueIn(last, key) else LastValue(reports[..|reports| - 1], key)
  }

  function Raw(s: SolarFlowState, key: string): Option<Json> {
    var raw := s.raw.GetOr(map[]);
    if key in raw then Some(raw[key]) else None
  }

  lemma ReportSets(s: SolarFlowState, m: Message)
    ensures forall f :: Typed(WithReport(s, m), f) == (if IntIn(m, f).Some? then IntIn(m, f) else Typed(s, f))
    ensures forall key :: (Raw(WithReport(s, m), key)
            == if key in REPORT_KEYS && ValueIn(m, key).Some? then ValueIn(m, key) else Raw(s, key))
  {
  }

  /** Every typed field is the last integer reported for its key. */
  lemma {:induction false} FieldsAreLastInts(reports: seq<Message>, f: Field)
    ensures Typed(Folded(EMPTY_STATE, reports), f) == LastInt(reports, f)
  {
    if reports != [] {
      var before := reports[..|reports| - 1];
      FieldsAreLastInts(before, f);
      ReportSets(Folded(EMPTY_STATE, before), reports[|reports| - 1]);
    }
  }

  /** `raw` holds the last value of every known key, and no other key. */
  lemma {:induction false} RawIsLastValues(reports: seq<Message>, key: string)
    ensures Raw(Folded(EMPTY_STATE, reports), key)
            == if key in REPORT_KEYS then LastValue(reports, key) else None
  {
    if reports != [] {
      var before := reports[..|reports| - 1];
      RawIsLastValues(before, key);
      ReportSets(Folded(EMPTY_STATE, before), reports[|reports| - 1]);
    }
  }

  lemma {:induction false} LastsAgree(reports: seq<Message>, f: Field)
    ensures LastValue(reports, WireKey(f)).Some? && LastValue(reports, WireKey(f)).value.Int? ==>
              LastInt(reports, f) == Some(LastValue(reports, WireKey(f)).value.i)
  {
    if reports != [] {
      LastsAgree(reports[..|reports| - 1], f);
    }
  }

  /** Where `raw` holds an integer, the typed field holds the same one. */
  lemma RawAgreesWithFields(reports: seq<Message>, f: Field)
    ensures var s := Folded(EMPTY_STATE, reports);
            Raw(s, WireKey(f)).Some? && Raw(s, WireKey(f)).value.Int? ==>
              Typed(s, f) == Some(Raw(s, WireKey(f)).value.i)
  {
    RawIsLastValues(reports, WireKey(f));
    FieldsAreLastInts(reports, f);
    LastsAgree(reports, f);
  }

  lemma PowerStaysDerived(s: SolarFlowState, m: Message)
    requires s.batteryPower == Derived(s.typed, None)
    ensures WithReport(s, m).batteryPower == Derived(WithReport(s, m).typed, None)
  {
  }

  lemma {:induction false} PowerIsDerived(reports: seq<Message>)
    ensures Folded(EMPTY_STATE, reports).batteryPower == Derived(Folded(EMPTY_STATE, reports).typed, None)
  {
    if reports != [] {
      var before := reports[..|reports| - 1];
      PowerIsDerived(before);
      PowerStaysDerived(Folded(EMPTY_STATE, before), reports[|reports| - 1]);
    }
  }

  /** `battery_power` is output minus input exactly when both are known. */
  lemma BatteryPowerIsDerived(reports: seq<Message>)
    ensures var s := Folded(EMPTY_STATE, reports);
            var output, input := LastInt(reports, OutputPackPower), LastInt(reports, PackInputPower);
            s.batteryPower == if output.Some? && input.Some? then Some(output.value - input.value) else None
  {
    FieldsAreLastInts(reports, OutputPackPower);
    FieldsAreLastInts(reports, PackInputPower);
    PowerIsDerived(reports);
  }

  function DeviceIdIn(m: Message): Json {
    m.deviceId
  }

  function ProductKeyIn(m: Message): Json {
    m.productKey
  }

  /** The last string a report with properties carries in one of its identity keys. */
  function LastText(reports: seq<Message>, text: Message -> Json): Option<string> {
    if reports == [] then None
    else
      var last := reports[|reports| - 1];
      if last.properties.Obj? && text(last).Str? then Some(text(last).s)
      else LastText(reports[..|reports| - 1], text)
  }

  /** Identity counts only when the report carries a properties object. */
  lemma {:induction false} IdentityIsLastText(reports: seq<Message>)
    ensures Folded(EMPTY_STATE, reports).deviceId == LastText(reports, DeviceIdIn)
    ensures Folded(EMPTY_STATE, reports).productKey == LastText(reports, ProductKeyIn)
  {
    if reports != [] {
      IdentityIsLastText(reports[..|reports| - 1]);
    }
  }

  // ---- Packs ------------------------------------------------------------

  function Serials(packs: seq<BatteryPack>): seq<string> {
    seq(|packs|, i requires 0 <= i < |packs| => packs[i].serial)
  }

  predicate Unique(packs: seq<BatteryPack>) {
    forall i, j | 0 <= i < j < |packs| :: packs[i].serial != packs[j].serial
  }

  /** A value of the pack with this serial, if the pack and the value are known. */
  function PackValue(packs: seq<BatteryPack>, serial: string, f: PackField): Option<int> {
    match Find(packs, serial)
    case None => None
    case Some(pack) => if f in pack.values then Some(pack.values[f]) else None
  }

  lemma {:induction false} FindMeans(known: seq<BatteryPack>, serial: string)
    ensures Find(known, serial).Some? <==> serial in Serials(known)
    ensures Find(known, serial).Some? ==>
              Find(known, serial).value in known && Find(known, serial).value.serial == serial
  {
    if known != [] {
      FindMeans(known[1..], serial);
      assert Serials(known) == [known[0].serial] + Serials(known[1..]);
    }
  }

  lemma {:induction false} StoreMeans(known: seq<BatteryPack>, pack: BatteryPack)
    ensures Serials(Store(known, pack))
            == if pack.serial in Serials(known) then Serials(known) else Serials(known) + [pack.serial]
  {
    if known == [] {
      assert Serials([pack]) == [pack.serial];
    } else {
      assert Serials(known) == [known[0].serial] + Serials(known[1..]);
      if known[0].serial == pack.serial {
        assert Serials([pack] + known[1..]) == [pack.serial] + Serials(known[1..]);
      } else {
        StoreMeans(known[1..], pack);
        assert Serials([known[0]] + Store(known[1..], pack)) == [known[0].serial] + Serials(Store(known[1..], pack));
      }
    }
  }

  lemma {:induction false} FindStore(known: seq<BatteryPack>, pack: BatteryPack, serial: string)
    ensures Find(Store(known, pack), serial) == if serial == pack.serial then Some(pack) else Find(known, serial)
  {
    if known != [] && known[0].serial != pack.serial {
      FindStore(known[1..], pack, serial);
    }
  }

  /** The serial an entry names: only an object whose `sn` is a string names one. */
  function EntrySerial(raw: Json): Option<string> {
    if raw.Obj? && "sn" in raw.fields && raw.fields["sn"].Str? then Some(raw.fields["sn"].s) else None
  }

  /** The integer an entry carries for a field of this pack; booleans do not count. */
  function EntryInt(raw: Json, serial: string, f: PackField): Option<int> {
    if EntrySerial(raw) == Some(serial) && PackKey(f) in raw.fields && raw.fields[PackKey(f)].Int?
    then Some(raw.fields[PackKey(f)].i) else None
  }

  /** First appearances: the serials known, then each new one once, in order. */
  function FirstAppearances(serials: seq<string>, raws: seq<Json>): seq<string> {
    if raws == [] then serials
    else
      var before := FirstAppearances(serials, raws[..|raws| - 1]);
      match EntrySerial(raws[|raws| - 1])
      case None => before
      case Some(serial) => if serial in before then before else before + [serial]
  }

  /** The last integer the entries of one serial carry for a field. */
  function LastPackInt(raws: seq<Json>, serial: string, f: PackField): Option<int> {
    if raws == [] then None
    else
      var last := EntryInt(raws[|raws| - 1], serial, f);
      if last.Some? then last else LastPackInt(raws[..|raws| - 1], serial, f)
  }

  lemma EntrySets(known: seq<BatteryPack>, raw: Json, serial: string, f: PackField)
    ensures PackValue(MergeEntry(known, raw), serial, f)
            == if LastPackInt([raw], serial, f).Some? then LastPackInt([raw], serial, f)
               else PackValue(known, serial, f)
  {
    if IsPackEntry(raw) {
      var sn := raw.fields["sn"].s;
      var current := Find(known, sn).GetOr(BatteryPack(sn, map[]));
      FindMeans(known, sn);
      FindStore(known, current.(values := current.values + PackInts(raw.fields)), serial);
    }
    assert [raw][..0] == [];
  }

  lemma EntryAppears(known: seq<BatteryPack>, raw: Json)
    ensures Serials(MergeEntry(known, raw)) == FirstAppearances(Serials(known), [raw])
  {
    if IsPackEntry(raw) {
      var sn := raw.fields["sn"].s;
      var current := Find(known, sn).GetOr(BatteryPack(sn, map[]));
      FindMeans(known, sn);
      StoreMeans(known, current.(values := current.values + PackInts(raw.fields)));
    }
    assert [raw][..0] == [];
  }

  /** Serials keep their order of first appearance, the known packs first. */
  lemma {:induction false} MergeOrder(known: seq<BatteryPack>, raws: seq<Json>)
    ensures Serials(MergeEntries(known, raws)) == FirstAppearances(Serials(known), raws)
  {
    if raws != [] {
      var before := raws[..|raws| - 1];
      MergeOrder(known, before);
      EntryAppears(MergeEntries(known, before), raws[|raws| - 1]);
      assert [raws[|raws| - 1]][..0] == [];
    }
  }

  lemma {:induction false} KnownPacksFirst(known: seq<BatteryPack>, raws: seq<Json>)
    ensures Serials(known) <= Serials(MergeEntries(known, raws))
  {
    MergeOrder(known, raws);
    PrefixKept(Serials(known), raws);
  }

  lemma {:induction false} PrefixKept(serials: seq<string>, raws: seq<Json>)
    ensures serials <= FirstAppearances(serials, raws)
  {
    if raws != [] {
      PrefixKept(serials, raws[..|raws| - 1]);
    }
  }

  /** Each value of a pack is the last integer its entries carry, else the known one. */
  lemma {:induction false} MergeValues(known: seq<BatteryPack>, raws: seq<Json>, serial: string, f: PackField)
    ensures PackValue(MergeEntries(known, raws), serial, f)
            == if LastPackInt(raws, serial, f).Some? then LastPackInt(raws, serial, f) else PackValue(known, serial, f)
  {
    if raws != [] {
      var before := raws[..|raws| - 1];
      MergeValues(known, before, serial, f);
      EntrySets(MergeEntries(known, before), raws[|raws| - 1], serial, f);
      assert [raws[|raws| - 1]][..0] == [];
    }
  }

  predicate Distinct(serials: seq<string>) {
    forall i, j | 0 <= i < j < |serials| :: serials[i] != serials[j]
  }

  lemma {:induction false} FirstAppearancesDistinct(serials: seq<string>, raws: seq<Json>)
    requires Distinct(serials)
    ensures Distinct(FirstAppearances(serials, raws))
  {
    if raws != [] {
      FirstAppearancesDistinct(serials, raws[..|raws| - 1]);
    }
  }

  lemma UniqueMeansDistinct(packs: seq<BatteryPack>)
    ensures Unique(packs) <==> Distinct(Serials(packs))
  {
    forall i, j | 0 <= i < j < |packs|
      ensures packs[i].serial != packs[j].serial <==> Serials(packs)[i] != Serials(packs)[j] {
    }
  }

  lemma {:induction false} OwnSerialsUnique(packs: seq<BatteryPack>)
    ensures Unique(ByOwnSerial(packs))
  {
    if packs != [] {
      var before := ByOwnSerial(packs[..|packs| - 1]);
      OwnSerialsUnique(packs[..|packs| - 1]);
      UniqueMeansDistinct(before);
      StoreMeans(before, packs[|packs| - 1]);
      UniqueMeansDistinct(ByOwnSerial(packs));
    }
  }

  lemma {:induction false} StoreNew(known: seq<BatteryPack>, pack: BatteryPack)
    requires pack.serial !in Serials(known)
    ensures Store(known, pack) == known + [pack]
  {
    if known != [] {
      assert Serials(known) == [known[0].serial] + Serials(known[1..]);
      StoreNew(known[1..], pack);
    }
  }

  /** Keying packs whose serials differ already changes nothing. */
  lemma {:induction false} UniqueIsKept(packs: seq<BatteryPack>)
    requires Unique(packs)
    ensures ByOwnSerial(packs) == packs
  {
    if packs != [] {
      var n := |packs| - 1;
      UniqueIsKept(packs[..n]);
      forall i | 0 <= i < n ensures Serials(packs[..n])[i] != packs[n].serial {
        assert packs[..n][i] == packs[i];
      }
      StoreNew(packs[..n], packs[n]);
    }
  }

  /** The merged packs have different serials, whatever was known before. */
  lemma MergedUnique(packs: seq<BatteryPack>, raws: seq<Json>)
    ensures Unique(MergedPacks(packs, raws))
  {
    var known := ByOwnSerial(packs);
    OwnSerialsUnique(packs);
    UniqueMeansDistinct(known);
    FirstAppearancesDistinct(Serials(known), raws);
    MergeOrder(known, raws);
    UniqueMeansDistinct(MergedPacks(packs, raws));
  }

  lemma {:induction false} MergeConcat(known: seq<BatteryPack>, a: seq<Json>, b: seq<Json>)
    ensures MergeEntries(MergeEntries(known, a), b) == MergeEntries(known, a + b)
  {
    if b == [] {
      assert a + b == a;
    } else {
      assert (a + b)[..|a + b| - 1] == a + b[..|b| - 1];
      MergeConcat(known, a, b[..|b| - 1]);
    }
  }

  /** Merging two lists in turn is merging their concatenation. */
  lemma MergeInTurn(packs: seq<BatteryPack>, a: seq<Json>, b: seq<Json>)
    ensures MergedPacks(MergedPacks(packs, a), b) == MergedPacks(packs, a + b)
  {
    MergedUnique(packs, a);
    UniqueIsKept(MergedPacks(packs, a));
    MergeConcat(ByOwnSerial(packs), a, b);
  }

  lemma {:induction false} FindOwn(packs: seq<BatteryPack>, i: nat)
    requires Unique(packs) && i < |packs|
    ensures Find(packs, packs[i].serial) == Some(packs[i])
  {
    if i > 0 {
      FindOwn(packs[1..], i - 1);
    }
  }

  /** Packs are determined by their serials in order and their values. */
  lemma SamePacks(a: seq<BatteryPack>, b: seq<BatteryPack>)
    requires Unique(a) && Unique(b) && Serials(a) == Serials(b)
    requires forall serial, f :: PackValue(a, serial, f) == PackValue(b, serial, f)
    ensures a == b
  {
    assert |Serials(a)| == |a| && |Serials(b)| == |b|;
    forall i | 0 <= i < |a| ensures a[i] == b[i] {
      assert Serials(a)[i] == a[i].serial && Serials(b)[i] == b[i].serial;
      FindOwn(a, i);
      FindOwn(b, i);
      forall f: PackField
        ensures f in a[i].values <==> f in b[i].values
        ensures f in a[i].values ==> a[i].values[f] == b[i].values[f]
      {
        assert PackValue(a, a[i].serial, f) == PackValue(b, a[i].serial, f);
      }
      assert a[i].values == b[i].values;
    }
  }

  /** All serials of the entries are known. */
  predicate Covered(serials: seq<string>, raws: seq<Json>) {
    forall i | 0 <= i < |raws| && EntrySerial(raws[i]).Some? :: EntrySerial(raws[i]).value in serials
  }

  lemma {:induction false} AppearancesCover(serials: seq<string>, raws: seq<Json>)
    ensures Covered(FirstAppearances(serials, raws), raws)
  {
    if raws != [] {
      AppearancesCover(serials, raws[..|raws| - 1]);
      forall i | 0 <= i < |raws| && EntrySerial(raws[i]).Some?
        ensures EntrySerial(raws[i]).value in FirstAppearances(serials, raws)
      {
        if i < |raws| - 1 {
          assert raws[..|raws| - 1][i] == raws[i];
        }
      }
    }
  }

  lemma {:induction false} CoveredAddsNothing(serials: seq<string>, raws: seq<Json>)
    requires Covered(serials, raws)
    ensures FirstAppearances(serials, raws) == serials
  {
    if raws != [] {
      forall i | 0 <= i < |raws| - 1 ensures raws[..|raws| - 1][i] == raws[i] {
      }
      CoveredAddsNothing(serials, raws[..|raws| - 1]);
    }
  }

  /** Merging the same entries again changes nothing. */
  lemma MergeIdempotent(packs: seq<BatteryPack>, raws: seq<Json>)
    ensures MergedPacks(MergedPacks(packs, raws), raws) == MergedPacks(packs, raws)
  {
    var known := ByOwnSerial(packs);
    var once := MergedPacks(packs, raws);
    MergedUnique(packs, raws);
    UniqueIsKept(once);
    MergedUnique(once, raws);
    var twice := MergeEntries(once, raws);
    MergeOrder(known, raws);
    AppearancesCover(Serials(known), raws);
    MergeOrder(once, raws);
    CoveredAddsNothing(Serials(once), raws);
    forall serial, f ensures PackValue(twice, serial, f) == PackValue(once, serial, f) {
      MergeValues(known, raws, serial, f);
      MergeValues(once, raws, serial, f);
    }
    SamePacks(twice, once);
  }

  /** All pack entries the reports carry, in order. */
  function PackEntries(reports: seq<Message>): seq<Json> {
    if reports == [] then []
    else
      var last := reports[|reports| - 1];
      PackEntries(reports[..|reports| - 1]) + (if last.packData.Arr? then last.packData.items else [])
  }

  /** Folding reports merges the packs as one merge of all their entries does. */
  lemma {:induction false} PacksAreMergedOnce(reports: seq<Message>)
    ensures Folded(EMPTY_STATE, reports).packs == MergedPacks([], PackEntries(reports))
  {
    if reports != [] {
      var before := reports[..|reports| - 1];
      var last := reports[|reports| - 1];
      PacksAreMergedOnce(before);
      if last.packData.Arr? {
        MergeInTurn([], PackEntries(before), last.packData.items);
      } else {
        assert PackEntries(reports) == PackEntries(before);
      }
    }
  }

  lemma UpdateTwice<K, V>(m: map<K, V>, u: map<K, V>)
    ensures (m + u) + u == m + u
  {
  }

  lemma PropertiesIdempotent(s: SolarFlowState, m: Message)
    requires m.properties.Obj?
    ensures ApplyProperties(ApplyProperties(s, m), m) == ApplyProperties(s, m)
  {
    UpdateTwice(s.typed, TypedInts(m.properties.fields));
    UpdateTwice(s.raw.GetOr(map[]), Known(m.properties.fields));
  }

  /** Applying a report a second time changes nothing. */
  lemma ReportIdempotent(s: SolarFlowState, m: Message)
    ensures WithReport(WithReport(s, m), m) == WithReport(s, m)
  {
    if m.packData.Arr? {
      MergeIdempotent(s.packs, m.packData.items);
    }
    if m.properties.Obj? {
      var packs := WithReport(s, m).packs;
      PropertiesIdempotent(s, m);
      assert ApplyProperties(ApplyProperties(s, m).(packs := packs), m) == ApplyProperties(s, m).(packs := packs);
    }
  }

  // ---- The keys of the report -------------------------------------------

  /** The typed field takes the integer of this key. */
  predicate Reads(p: map<string, Json>, r: SolarFlowState, key: string, f: Field) {
    key in p && p[key].Int? ==> Typed(r, f) == Some(p[key].i)
  }

  lemma ReadsField(s: SolarFlowState, m: Message, f: Field)
    requires m.properties.Obj?
    ensures Reads(m.properties.fields, WithReport(s, m), WireKey(f), f)
  {
    ReportSets(s, m);
  }

  // The key of each field, in groups, and the keys themselves.

  predicate FirstKeys(p: map<string, Json>, r: SolarFlowState) {
    && Reads(p, r, "packInputPower", PackInputPower)
    && Reads(p, r, "outputPackPower", OutputPackPower)
    && Reads(p, r, "outputHomePower", OutputHomePower)
    && Reads(p, r, "remainOutTime", RemainOutTime)
    && Reads(p, r, "dataReady", DataReady)
    && Reads(p, r, "acMode", AcMode)
    && Reads(p, r, "inputLimit", InputLimit)
    && Reads(p, r, "outputLimit", OutputLimit)
  }

  lemma FirstKeysRead(p: map<string, Json>, r: SolarFlowState)
    requires forall f :: Reads(p, r, WireKey(f), f)
    ensures FirstKeys(p, r)
  {
    assert WireKey(PackInputPower) == "packInputPower";
    assert WireKey(OutputPackPower) == "outputPackPower";
    assert WireKey(OutputHomePower) == "outputHomePower";
    assert WireKey(RemainOutTime) == "remainOutTime";
    assert WireKey(DataReady) == "dataReady";
    assert WireKey(AcMode) == "acMode";
    assert WireKey(InputLimit) == "inputLimit";
    assert WireKey(OutputLimit) == "outputLimit";
  }

  predicate SecondKeys(p: map<string, Json>, r: SolarFlowState) {
    && Reads(p, r, "packState", PackState)
    && Reads(p, r, "acStatus", AcStatus)
    && Reads(p, r, "electricLevel", ElectricLevel)
    && Reads(p, r, "gridState", GridState)
    && Reads(p, r, "faultLevel", FaultLevel)
    && Reads(p, r, "smartMode", SmartMode)
    && Reads(p, r, "chargeMaxLimit", ChargeMaxLimit)
  }

  lemma SecondKeysRead(p: map<string, Json>, r: SolarFlowState)
    requires forall f :: Reads(p, r, WireKey(f), f)
    ensures SecondKeys(p, r)
  {
    assert WireKey(PackState) == "packState";
    assert WireKey(AcStatus) == "acStatus";
    assert WireKey(ElectricLevel) == "electricLevel";
    assert WireKey(GridState) == "gridState";
    assert WireKey(FaultLevel) == "faultLevel";
    assert WireKey(SmartMode) == "smartMode";
    assert WireKey(ChargeMaxLimit) == "chargeMaxLimit";
  }

  predicate ThirdKeys(p: map<string, Json>, r: SolarFlowState) {
    && Reads(p, r, "socLimit", SocLimit)
    && Reads(p, r, "minSoc", MinSoc)
    && Reads(p, r, "socSet", SocSet)
    && Reads(p, r, "gridInputPower", GridInputPower)
    && Reads(p, r, "solarInputPower", SolarInputPower)
    && Reads(p, r, "solarPower1", SolarPower1)
    && Reads(p, r, "solarPower2", SolarPower2)
  }

  lemma ThirdKeysRead(p: map<string, Json>, r: SolarFlowState)
    requires forall f :: Reads(p, r, WireKey(f), f)
    ensures ThirdKeys(p, r)
  {
    assert WireKey(SocLimit) == "socLimit";
    assert WireKey(MinSoc) == "minSoc";
    assert WireKey(SocSet) == "socSet";
    assert WireKey(GridInputPower) == "gridInputPower";
    assert WireKey(SolarInputPower) == "solarInputPower";
    assert WireKey(SolarPower1) == "solarPower1";
    assert WireKey(SolarPower2) == "solarPower2";
  }

  predicate FourthKeys(p: map<string, Json>, r: SolarFlowState) {
    && Reads(p, r, "solarPower3", SolarPower3)
    && Reads(p, r, "solarPower4", SolarPower4)
    && Reads(p, r, "solarPower5", SolarPower5)
    && Reads(p, r, "solarPower6", SolarPower6)
    && Reads(p, r, "gridOffPower", GridOffPower)
    && Reads(p, r, "socStatus", SocStatus)
    && Reads(p, r, "hyperTmp", HyperTemperature)
  }

  lemma FourthKeysRead(p: map<string, Json>, r: SolarFlowState)
    requires forall f :: Reads(p, r, WireKey(f), f)
    ensures FourthKeys(p, r)
  {
    assert WireKey(SolarPower3) == "solarPower3";
    assert WireKey(SolarPower4) == "solarPower4";
    assert WireKey(SolarPower5) == "solarPower5";
    assert WireKey(SolarPower6) == "solarPower6";
    assert WireKey(GridOffPower) == "gridOffPower";
    assert WireKey(SocStatus) == "socStatus";
    assert WireKey(HyperTemperature) == "hyperTmp";
  }

  /** `raw` keeps the keys of the typed fields and no other. */
  lemma RawKeys(key: string)
    ensures key in REPORT_KEYS <==> exists f :: WireKey(f) == key
  {
  }

  /** Every typed field is read from its own key. */
  lemma ReportKeys(s: SolarFlowState, m: Message)
    requires m.properties.Obj?
    ensures var p, r := m.properties.fields, WithReport(s, m);
            FirstKeys(p, r) && SecondKeys(p, r) && ThirdKeys(p, r) && FourthKeys(p, r)
  {
    var p, r := m.properties.fields, WithReport(s, m);
    forall f ensures Reads(p, r, WireKey(f), f) {
      ReadsField(s, m, f);
    }
    FirstKeysRead(p, r);
    SecondKeysRead(p, r);
    ThirdKeysRead(p, r);
    FourthKeysRead(p, r);
  }

  predicate ReadsPack(raw: Json, r: seq<BatteryPack>, key: string, f: PackField)
    requires EntrySerial(raw).Some?
  {
    key in raw.fields && raw.fields[key].Int? ==> PackValue(r, EntrySerial(raw).value, f) == Some(raw.fields[key].i)
  }

  lemma ReadsPackField(packs: seq<BatteryPack>, raw: Json, f: PackField)
    requires EntrySerial(raw).Some?
    ensures ReadsPack(raw, MergedPacks(packs, [raw]), PackKey(f), f)
  {
    MergeValues(ByOwnSerial(packs), [raw], EntrySerial(raw).value, f);
    assert [raw][..0] == [];
  }

  /** Which key of an entry each value of a pack is read from. */
  lemma PackKeys(packs: seq<BatteryPack>, raw: Json)
    requires EntrySerial(raw).Some?
    ensures var r := MergedPacks(packs, [raw]);
            && ReadsPack(raw, r, "packType", PackType)
            && ReadsPack(raw, r, "socLevel", SocLevel)
            && ReadsPack(raw, r, "state", PackStatus)
            && ReadsPack(raw, r, "power", Power)
            && ReadsPack(raw, r, "maxTemp", MaxTemp)
            && ReadsPack(raw, r, "totalVol", TotalVoltage)
            && ReadsPack(raw, r, "batcur", BatteryCurrent)
            && ReadsPack(raw, r, "maxVol", MaxVoltage)
            && ReadsPack(raw, r, "minVol", MinVoltage)
            && ReadsPack(raw, r, "softVersion", SoftwareVersion)
            && ReadsPack(raw, r, "heatState", HeatState)
  {
    ReadsPackField(packs, raw, PackType);
    ReadsPackField(packs, raw, SocLevel);
    ReadsPackField(packs, raw, PackStatus);
    ReadsPackField(packs, raw, Power);
    ReadsPackField(packs, raw, MaxTemp);
    ReadsPackField(packs, raw, TotalVoltage);
    ReadsPackField(packs, raw, BatteryCurrent);
    ReadsPackField(packs, raw, MaxVoltage);
    ReadsPackField(packs, raw, MinVoltage);
    ReadsPackField(packs, raw, SoftwareVersion);
    ReadsPackField(packs, raw, HeatState);
  }

  // ---- The loops of the source ------------------------------------------

  /** `_merged_packs`: the dict is built once and updated entry by entry. */
  method MergePacks(packs: seq<BatteryPack>, raws: seq<Json>) returns (merged: seq<BatteryPack>)
    ensures merged == MergedPacks(packs, raws)
  {
    var known: seq<BatteryPack> := [];
    for i := 0 to |packs|
      invariant known == ByOwnSerial(packs[..i])
    {
      known := Store(known, packs[i]);
      assert packs[..i + 1][..i] == packs[..i];
    }
    assert packs[..|packs|] == packs;
    for i := 0 to |raws|
      invariant known == MergeEntries(ByOwnSerial(packs), raws[..i])
    {
      assert raws[..i + 1][..i] == raws[..i];
      if !IsPackEntry(raws[i]) {
        continue;
      }
      var serial := raws[i].fields["sn"].s;
      var current := Find(known, serial).GetOr(BatteryPack(serial, map[]));
      known := Store(known, current.(values := current.values + PackInts(raws[i].fields)));
    }
    assert raws[..|raws|] == raws;
    merged := known;
  }

  /** `with_report`: the changes are collected step by step and applied at once. */
  method ApplyReport(s: SolarFlowState, m: Message) returns (r: SolarFlowState)
    ensures r == WithReport(s, m)
  {
    var changes := s;
    if m.properties.Obj? {
      var properties := m.properties.fields;
      changes := changes.(typed := changes.typed + TypedInts(properties));
      if m.deviceId.Str? {
        changes := changes.(deviceId := Some(m.deviceId.s));
      }
      if m.productKey.Str? {
        changes := changes.(productKey := Some(m.productKey.s));
      }
      if PackInputPower in changes.typed && OutputPackPower in changes.typed {
        changes := changes.(batteryPower := Some(changes.typed[OutputPackPower] - changes.typed[PackInputPower]));
      }
      changes := changes.(raw := Some(s.raw.GetOr(map[]) + Known(properties)));
      assert changes == ApplyProperties(s, m);
    }
    if m.packData.Arr? {
      var packs := MergePacks(s.packs, m.packData.items);
      changes := changes.(packs := packs);
    }
    r := changes;
  }
}
