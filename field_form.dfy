/**
 * The field form of components/Fields.tsx: its defaults and prefill, the
 * per-input change handler, the submit that parses the comma-separated crop
 * list and merges the edit into the existing field, and the moisture status
 * bands shown next to each field.
 */
module FieldForm {
  import opened Types
  import opened Strings
  import Notifications

  /** The form's state: the crop list is edited as one comma-separated string. */
  datatype FormState = FormState(name: string, cropTypes: string, growthStage: GrowthStage,
                                 soilType: SoilType, irrigationSystemType: IrrigationSystem, flowRate: int)

  /** The blank form of a new field. */
  function DefaultForm(): (r: FormState)
    ensures r.name == "" && r.cropTypes == "" && r.flowRate == 0
    ensures r.growthStage == Seedling && r.soilType == Loam && r.irrigationSystemType == Drip
  {
    FormState("", "", Seedling, Loam, Drip, 0)
  }

  /** The crops as the form shows them. */
  function JoinCrops(crops: seq<string>): string {
    Join(crops, ", ")
  }

  /** The prefill effect: an edited field's values, or the blank form. */
  function Prefill(field: Option<Field>): (r: FormState)
    ensures field.None? ==> r == DefaultForm()
    ensures field.Some? ==>
              && r.name == field.value.name && r.cropTypes == JoinCrops(field.value.cropTypes)
              && r.growthStage == field.value.growthStage && r.soilType == field.value.soilType
              && r.irrigationSystemType == field.value.irrigationSystemType
              && r.flowRate == field.value.flowRate
  {
    match field
    case None => DefaultForm()
    case Some(f) => FormState(f.name, JoinCrops(f.cropTypes), f.growthStage, f.soilType,
                              f.irrigationSystemType, f.flowRate)
  }

  /** `parseInt(value) || 0`: NaN (and zero) become 0. */
  function ParseIntOrZero(v: string): (r: int)
    ensures ParseInt(v).None? ==> r == 0
    ensures ParseInt(v).Some? ==> r == ParseInt(v).value
  {
    match ParseInt(v)
    case None => 0
    case Some(n) => n
  }

  /** A flow rate typed as its decimal numeral is read back as that number. */
  lemma FlowRateRoundTrip(n: int)
    ensures ParseIntOrZero(IntToString(n)) == n
  {
    IntToStringParses(n);
  }

  /** Input that holds no digit at the start is stored as a zero flow rate. */
  lemma FlowRateFallback()
    ensures ParseIntOrZero("") == 0
    ensures ParseIntOrZero("abc") == 0
  {
    var t := "abc";
    assert !IsWhitespace(t[0]);
    assert TrimStart(t) == t;
    assert DigitValue(t[0], 10).None?;
    assert DigitPrefix(t, 10) == "";
    assert ParseUnsigned(t).None?;
  }

  /** One change event, by input name. */
  datatype FormInput =
    | NameInput(text: string)
    | CropTypesInput(text: string)
    | GrowthStageInput(stage: GrowthStage)
    | SoilTypeInput(soil: SoilType)
    | IrrigationSystemInput(system: IrrigationSystem)
    | FlowRateInput(text: string)

  /** `handleChange`: the named input takes the value, verbatim except the flow rate. */
  function Change(form: FormState, input: FormInput): (r: FormState)
    ensures input.NameInput? ==> r == form.(name := input.text)
    ensures input.CropTypesInput? ==> r == form.(cropTypes := input.text)
    ensures input.GrowthStageInput? ==> r == form.(growthStage := input.stage)
    ensures input.SoilTypeInput? ==> r == form.(soilType := input.soil)
    ensures input.IrrigationSystemInput? ==> r == form.(irrigationSystemType := input.system)
    ensures input.FlowRateInput? ==> r == form.(flowRate := ParseIntOrZero(input.text))
  {
    match input
    case NameInput(t) => form.(name := t)
    case CropTypesInput(t) => form.(cropTypes := t)
    case GrowthStageInput(g) => form.(growthStage := g)
    case SoilTypeInput(s) => form.(soilType := s)
    case IrrigationSystemInput(i) => form.(irrigationSystemType := i)
    case FlowRateInput(t) => form.(flowRate := ParseIntOrZero(t))
  }

  /** The index of the first comma, if there is one. */
  function CommaIndex(s: string): (r: Option<nat>)
    ensures r.None? ==> ',' !in s
    ensures r.Some? ==> r.value < |s| && s[r.value] == ',' && ',' !in s[..r.value]
  {
    if |s| == 0 then None
    else if s[0] == ',' then Some(0)
    else
      match CommaIndex(s[1..])
      case None => None
      case Some(i) => assert s[..i + 1] == [s[0]] + s[1..][..i]; Some(i + 1)
  }

  /** `s.split(',')`: the comma-free pieces that, joined by commas, give `s`. */
  function SplitComma(s: string): (r: seq<string>)
    ensures |r| > 0
    ensures forall i :: 0 <= i < |r| ==> ',' !in r[i]
    ensures Join(r, ",") == s
    decreases |s|
  {
    match CommaIndex(s)
    case None => [s]
    case Some(i) =>
      var rest := SplitComma(s[i + 1..]);
      assert s == s[..i] + "," + s[i + 1..];
      [s[..i]] + rest
  }

  lemma SplitCommaAt(a: string, b: string)
    requires ',' !in a
    ensures SplitComma(a + "," + b) == [a] + SplitComma(b)
  {
    var s := a + "," + b;
    assert s[|a|] == ',';
    assert s[..|a|] == a && s[|a| + 1..] == b;
  }

  /** A crop entry the form can represent: non-empty, trimmed, without a comma. */
  predicate WellFormedCrop(c: string) {
    c != "" && IsTrimmed(c) && ',' !in c
  }

  predicate WellFormedCrops(crops: seq<string>) {
    forall i :: 0 <= i < |crops| ==> WellFormedCrop(crops[i])
  }

  lemma WellFormedTail(crops: seq<string>)
    requires WellFormedCrops(crops) && |crops| > 0
    ensures WellFormedCrop(crops[0]) && WellFormedCrops(crops[1..])
    ensures crops == [crops[0]] + crops[1..]
  {
  }

  lemma TrimCommaFree(x: string)
    requires ',' !in x
    ensures ',' !in Trim(x)
  {
    var i, j :| 0 <= i <= j <= |x| && Trim(x) == x[i..j];
  }

  /** The pieces trimmed, the empty ones dropped (`.map(s => s.trim()).filter(Boolean)`). */
  function Clean(pieces: seq<string>): (r: seq<string>)
    requires forall i :: 0 <= i < |pieces| ==> ',' !in pieces[i]
    ensures |r| <= |pieces|
    ensures WellFormedCrops(r)
  {
    if |pieces| == 0 then []
    else
      var t := Trim(pieces[0]);
      TrimCommaFree(pieces[0]);
      (if t == "" then [] else [t]) + Clean(pieces[1..])
  }

  /** The submitted crop list. */
  function ParseCrops(s: string): (r: seq<string>)
    ensures WellFormedCrops(r)
  {
    Clean(SplitComma(s))
  }

  lemma SpaceIsWhitespace()
    ensures AllWhitespace(" ")
  {
  }

  lemma WhitespaceCommaFree(w: string)
    requires AllWhitespace(w)
    ensures ',' !in w
  {
  }

  /** Padding alone holds no entry. */
  lemma ParsePaddedEmpty(w: string)
    requires AllWhitespace(w)
    ensures ParseCrops(w) == []
  {
    WhitespaceCommaFree(w);
    assert SplitComma(w) == [w];
    TrimPadded(w, "", "");
    assert w + "" + "" == w;
  }

  /** The last entry, after its padding. */
  lemma ParsePaddedLast(w: string, c: string)
    requires AllWhitespace(w) && WellFormedCrop(c)
    ensures ParseCrops(w + c) == [c]
  {
    WhitespaceCommaFree(w);
    assert ',' !in w + c;
    assert SplitComma(w + c) == [w + c];
    TrimPadded(w, c, "");
    assert w + c + "" == w + c;
  }

  /** An entry, after its padding, then the `", "` separator and the rest. */
  lemma ParsePaddedFirst(w: string, c: string, rest: string)
    requires AllWhitespace(w) && WellFormedCrop(c)
    ensures ParseCrops(w + (c + ", " + rest)) == [c] + ParseCrops(" " + rest)
  {
    WhitespaceCommaFree(w);
    assert ',' !in w + c;
    assert w + (c + ", " + rest) == (w + c) + "," + (" " + rest);
    SplitCommaAt(w + c, " " + rest);
    TrimPadded(w, c, "");
    assert w + c + "" == w + c;
    var pieces := [w + c] + SplitComma(" " + rest);
    assert pieces[1..] == SplitComma(" " + rest);
  }

  lemma ParsePaddedCons(w: string, crops: seq<string>)
    requires AllWhitespace(w) && |crops| > 1 && WellFormedCrop(crops[0])
    ensures ParseCrops(w + JoinCrops(crops)) == [crops[0]] + ParseCrops(" " + JoinCrops(crops[1..]))
  {
    assert JoinCrops(crops) == crops[0] + ", " + JoinCrops(crops[1..]);
    ParsePaddedFirst(w, crops[0], JoinCrops(crops[1..]));
  }

  lemma {:induction false} ParsePaddedJoin(w: string, crops: seq<string>)
    requires AllWhitespace(w)
    requires WellFormedCrops(crops)
    ensures ParseCrops(w + JoinCrops(crops)) == crops
    decreases |crops|
  {
    if |crops| == 0 {
      assert w + JoinCrops(crops) == w;
      ParsePaddedEmpty(w);
    } else if |crops| == 1 {
      assert w + JoinCrops(crops) == w + crops[0];
      ParsePaddedLast(w, crops[0]);
    } else {
      WellFormedTail(crops);
      SpaceIsWhitespace();
      ParsePaddedJoin(" ", crops[1..]);
      ParsePaddedCons(w, crops);
    }
  }

  /**
   * Prefilling a crop list with `join(', ')` and submitting it again
   * gives back the same list, when its entries are well formed.
   */
  lemma CropsRoundTrip(crops: seq<string>)
    requires WellFormedCrops(crops)
    ensures ParseCrops(JoinCrops(crops)) == crops
  {
    ParsePaddedJoin("", crops);
    assert "" + JoinCrops(crops) == JoinCrops(crops);
  }

  /** Re-submitting a submitted crop list changes nothing. */
  lemma ParseCropsIdempotent(s: string)
    ensures ParseCrops(JoinCrops(ParseCrops(s))) == ParseCrops(s)
  {
    CropsRoundTrip(ParseCrops(s));
  }

  /** What the form hands to the save handler. */
  datatype SaveRequest = UpdateRequest(field: Field) | AddRequest(details: FieldDetails)

  /**
   * `{...field, ...finalData}`: the six form values replace the field's own,
   * and id, location, moisture, history, image and vegetation index stay.
   */
  function Merge(f: Field, d: FieldDetails): (r: Field)
    ensures DetailsOf(r) == d
    ensures r.id == f.id && r.location == f.location && r.soilMoisture == f.soilMoisture
    ensures r.soilMoistureHistory == f.soilMoistureHistory && r.imageUrl == f.imageUrl && r.ndvi == f.ndvi
  {
    f.(name := d.name, cropTypes := d.cropTypes, growthStage := d.growthStage, soilType := d.soilType,
       irrigationSystemType := d.irrigationSystemType, flowRate := d.flowRate)
  }

  /** Merging the details a field already has gives back that field. */
  lemma MergeOwnDetails(f: Field)
    ensures Merge(f, DetailsOf(f)) == f
  {
  }

  /** The details the form stands for. */
  function Details(form: FormState): FieldDetails {
    FieldDetails(form.name, ParseCrops(form.cropTypes), form.growthStage, form.soilType,
                 form.irrigationSystemType, form.flowRate)
  }

  /** `handleSubmit`: an edit of `field` becomes its merged record, a new field just its details. */
  function Submit(form: FormState, field: Option<Field>): (r: SaveRequest)
    ensures r.UpdateRequest? <==> field.Some?
    ensures r.UpdateRequest? ==> r.field == Merge(field.value, Details(form))
    ensures r.AddRequest? ==> r.details == Details(form)
  {
    if field.Some? then UpdateRequest(Merge(field.value, Details(form))) else AddRequest(Details(form))
  }

  /** Submitting the prefilled form of a field unchanged saves that same field. */
  lemma PrefillSubmitUnchanged(f: Field)
    requires WellFormedCrops(f.cropTypes)
    ensures Submit(Prefill(Some(f)), Some(f)) == UpdateRequest(f)
  {
    CropsRoundTrip(f.cropTypes);
  }

  /**
   * The browser's check of the `required` name and crop inputs: it submits
   * the form only when neither text is empty. Whitespace passes it.
   */
  predicate Submittable(form: FormState) {
    form.name != "" && form.cropTypes != ""
  }

  /**
   * The blank form is never submitted, and an edited field's prefilled form
   * is submitted unchanged only when it has a name and a crop text.
   */
  lemma BlankFormBlocked()
    ensures !Submittable(DefaultForm())
    ensures forall field: Field :: Submittable(Prefill(Some(field))) <==>
              field.name != "" && field.cropTypes != [] && field.cropTypes != [""]
  {
    forall field: Field ensures Prefill(Some(field)).cropTypes == "" <==> field.cropTypes == [] || field.cropTypes == [""] {
      JoinCropsEmpty(field.cropTypes);
    }
  }

  /** The crop text of a prefilled form is empty only for an empty crop list or a single empty crop. */
  lemma JoinCropsEmpty(crops: seq<string>)
    ensures JoinCrops(crops) == "" <==> crops == [] || crops == [""]
  {
    if |crops| >= 2 {
      assert |JoinCrops(crops)| >= 2;
    }
  }

  /**
   * `handleSubmit` applied to the blank form gives a nameless field with no
   * crops and the default selections; the browser never submits that form
   * (BlankFormBlocked).
   */
  lemma DefaultSubmit()
    ensures Submit(DefaultForm(), None) == AddRequest(FieldDetails("", [], Seedling, Loam, Drip, 0))
  {
    assert SplitComma("") == [""];
    assert Trim("") == "";
  }

  datatype MoistureStatus = Optimal | Watch | Critical

  /** `getStatus`: above 60 optimal, above 30 watch, critical otherwise. */
  function StatusOf(moisture: int): (r: MoistureStatus)
    ensures r == Optimal <==> moisture > 60
    ensures r == Watch <==> 30 < moisture <= 60
    ensures r == Critical <==> moisture <= 30
  {
    if moisture > 60 then Optimal else if moisture > 30 then Watch else Critical
  }

  function Severity(s: MoistureStatus): nat {
    match s
    case Optimal => 0
    case Watch => 1
    case Critical => 2
  }

  /** Wetter soil never shows a more severe status. */
  lemma StatusMonotone(m: int, n: int)
    requires m <= n
    ensures Severity(StatusOf(n)) <= Severity(StatusOf(m))
  {
  }

  /**
   * A critical field is below the low-moisture alert threshold, and an
   * optimal one is past the re-arm level.
   */
  lemma StatusAgreesWithAlerts(m: int)
    ensures StatusOf(m) == Critical ==> m < Notifications.CriticalMoisture
    ensures StatusOf(m) == Optimal ==> m >= Notifications.RestoredMoisture
  {
  }
}
