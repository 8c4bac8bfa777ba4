// Data shaping around the four Gemini/Imagen calls of the Gemini service:
// what each call is sent, how its answer is mapped, and the fixed value each
// failure path yields. The model calls themselves are outcomes handed in.

module Gemini {
  import opened Types
  import opened Strings

  const ImageDataPrefix := "data:image/jpeg;base64,"
  const PlaceholderImage := "https://" + "storage.googleapis.com/maker-suite-gallery/aquacrop-previews/placeholder.png"
  const ScheduleError := "Failed to generate AI schedule."
  const ChatFallback :=
    "I'm sorry, but I'm having trouble connecting to my reasoning engine right now. Please try again in a moment."
  const FocusFallback := "**System Status:**" + " All parameters are currently stable." + " Monitoring for changes."
  const UnknownField := "Unknown"
  const ChatLogWindow := 5
  const LowMoistureLine := 40

  // ---------------------------------------------------------------- images

  /**
   * `getAIGeneratedCropImage`: the first generated image as a JPEG data URL;
   * no image or a failed call gives the placeholder URL.
   */
  function CropImageUrl(response: Outcome<seq<string>>): (r: string)
    ensures response.Ok? && |response.value| > 0 ==> r == ImageDataPrefix + response.value[0]
    ensures response.Failed? || |response.value| == 0 ==> r == PlaceholderImage
  {
    if response.Ok? && |response.value| > 0 then ImageDataPrefix + response.value[0] else PlaceholderImage
  }

  /** The URL is a data URL exactly when an image came back, so the two cases are told apart by the text. */
  lemma CropImageIsDataUrl(response: Outcome<seq<string>>)
    ensures (|CropImageUrl(response)| >= |ImageDataPrefix|
             && CropImageUrl(response)[..|ImageDataPrefix|] == ImageDataPrefix)
            <==> (response.Ok? && |response.value| > 0)
  {
    if response.Ok? && |response.value| > 0 {
      assert (ImageDataPrefix + response.value[0])[..|ImageDataPrefix|] == ImageDataPrefix;
    } else {
      assert PlaceholderImage[0] == 'h';
      assert ImageDataPrefix[0] == 'd';
    }
  }

  // -------------------------------------------------------------- schedule

  /** A field as the schedule request shows it: everything but its image and moisture history. */
  datatype ScheduleFieldView = ScheduleFieldView(
    id: string, name: string, cropTypes: seq<string>, growthStage: GrowthStage, soilType: SoilType,
    irrigationSystemType: IrrigationSystem, flowRate: int, location: Location, soilMoisture: int,
    ndvi: Option<real>)

  function ScheduleView(f: Field): ScheduleFieldView {
    ScheduleFieldView(f.id, f.name, f.cropTypes, f.growthStage, f.soilType, f.irrigationSystemType,
                      f.flowRate, f.location, f.soilMoisture, f.ndvi)
  }

  /** The field list of the schedule request. */
  function SchedulePayload(fields: seq<Field>): (r: seq<ScheduleFieldView>)
    ensures |r| == |fields|
    ensures forall i :: 0 <= i < |fields| ==> r[i] == ScheduleView(fields[i])
  {
    seq(|fields|, i requires 0 <= i < |fields| => ScheduleView(fields[i]))
  }

  /** Two fields look alike to the schedule request exactly when they differ at most in image and history. */
  lemma ScheduleViewIgnoresOnly(f: Field, g: Field)
    ensures ScheduleView(f) == ScheduleView(g)
            <==> f.(imageUrl := g.imageUrl, soilMoistureHistory := g.soilMoistureHistory) == g
  {
  }

  /** An event as the model returns it, its start time still an ISO 8601 string. */
  datatype RawEvent = RawEvent(fieldId: string, startTime: string, durationMinutes: real, status: EventStatus)

  /**
   * `{...event, startTime: new Date(event.startTime)}`, with the date parser
   * passed in; it yields the invalid date for a string it cannot parse.
   */
  function ToEvent(e: RawEvent, toInstant: string -> Date): IrrigationEvent {
    IrrigationEvent(e.fieldId, toInstant(e.startTime), e.durationMinutes, e.status)
  }

  /** Every returned event keeps its field, duration and status; only its start time is converted. */
  function ToEvents(raws: seq<RawEvent>, toInstant: string -> Date): (r: seq<IrrigationEvent>)
    ensures |r| == |raws|
    ensures forall i :: 0 <= i < |raws| ==>
              && r[i].fieldId == raws[i].fieldId
              && r[i].startTime == toInstant(raws[i].startTime)
              && r[i].durationMinutes == raws[i].durationMinutes
              && r[i].status == raws[i].status
  {
    seq(|raws|, i requires 0 <= i < |raws| => ToEvent(raws[i], toInstant))
  }

  /** `getAIIrrigationSchedule` resolves with events or rejects with one error message. */
  datatype ScheduleReply = Events(events: seq<IrrigationEvent>) | Rejected(message: string)

  /**
   * A failed call or an unparsable answer (both `Failed`) is reported as the
   * single schedule error; otherwise the converted events.
   */
  function ScheduleResult(response: Outcome<seq<RawEvent>>, toInstant: string -> Date): (r: ScheduleReply)
    ensures r.Rejected? <==> response.Failed?
    ensures r.Rejected? ==> r.message == ScheduleError
    ensures r.Events? ==> r.events == ToEvents(response.value, toInstant)
  {
    match response
    case Ok(raws) => Events(ToEvents(raws, toInstant))
    case Failed => Rejected(ScheduleError)
  }

  /** The outcome the application sees when it awaits the schedule call. */
  function AsOutcome(reply: ScheduleReply): (r: Outcome<seq<IrrigationEvent>>)
    ensures r.Ok? <==> reply.Events?
    ensures r.Ok? ==> r.value == reply.events
  {
    match reply
    case Events(es) => Ok(es)
    case Rejected(_) => Failed
  }

  /** Every failure the schedule call can meet reaches the application as a failure, and every answer as its events. */
  lemma ScheduleOutcomeFaithful(response: Outcome<seq<RawEvent>>, toInstant: string -> Date)
    ensures AsOutcome(ScheduleResult(response, toInstant)).Failed? <==> response.Failed?
    ensures response.Ok? ==> AsOutcome(ScheduleResult(response, toInstant)) == Ok(ToEvents(response.value, toInstant))
  {
  }

  // ------------------------------------------------------------------ chat

  /** A field as the chat context shows it: everything but its image. */
  datatype ChatFieldView = ChatFieldView(
    id: string, name: string, cropTypes: seq<string>, growthStage: GrowthStage, soilType: SoilType,
    irrigationSystemType: IrrigationSystem, flowRate: int, location: Location, soilMoisture: int,
    soilMoistureHistory: seq<int>, ndvi: Option<real>)

  function ChatView(f: Field): ChatFieldView {
    ChatFieldView(f.id, f.name, f.cropTypes, f.growthStage, f.soilType, f.irrigationSystemType,
                  f.flowRate, f.location, f.soilMoisture, f.soilMoistureHistory, f.ndvi)
  }

  /** Two fields look alike to the chat context exactly when they differ at most in their image. */
  lemma ChatViewIgnoresOnly(f: Field, g: Field)
    ensures ChatView(f) == ChatView(g) <==> f.(imageUrl := g.imageUrl) == g
  {
  }

  /** An event of the chat context, carrying the name of its field. */
  datatype AnnotatedEvent = AnnotatedEvent(event: IrrigationEvent, fieldName: string)

  /** `{...s, fieldName: fields.find(...)?.name || 'Unknown'}`. */
  function Annotate(fields: seq<Field>, e: IrrigationEvent): (r: AnnotatedEvent)
    ensures r.event == e
    ensures r.fieldName == FieldNameOr(fields, e.fieldId, UnknownField)
  {
    AnnotatedEvent(e, FieldNameOr(fields, e.fieldId, UnknownField))
  }

  /** An event for a field that is not in the list is annotated `Unknown`. */
  lemma AnnotateUnknown(fields: seq<Field>, e: IrrigationEvent)
    requires forall i :: 0 <= i < |fields| ==> fields[i].id != e.fieldId
    ensures Annotate(fields, e).fieldName == UnknownField
  {
  }

  /** An event for a listed, named field carries the name of the first field with its id. */
  lemma AnnotateKnown(fields: seq<Field>, e: IrrigationEvent, k: nat)
    requires k < |fields| && fields[k].id == e.fieldId && fields[k].name != ""
    requires forall j :: 0 <= j < k ==> fields[j].id != e.fieldId
    ensures Annotate(fields, e).fieldName == fields[k].name
  {
    FindFirst(fields, e.fieldId, k);
  }

  /** The field `find` returns is the first one with the id. */
  lemma {:induction false} FindFirst(fields: seq<Field>, id: string, k: nat)
    requires k < |fields| && fields[k].id == id
    requires forall j :: 0 <= j < k ==> fields[j].id != id
    ensures FindField(fields, id) == Some(fields[k])
    decreases k
  {
    if k > 0 {
      assert fields[0].id != id;
      FindFirst(fields[1..], id, k - 1);
    }
  }

  /** `agentLog.slice(0, 5)`: the first five entries, or the whole log when shorter. */
  function RecentLog(log: seq<LogEntry>): (r: seq<LogEntry>)
    ensures |r| == if |log| < ChatLogWindow then |log| else ChatLogWindow
    ensures r == log[..|r|]
  {
    if |log| < ChatLogWindow then log else log[..ChatLogWindow]
  }

  /**
   * After an entry is logged, the chat context sees it first, followed by the
   * previous window less its last entry when the window was full.
   */
  lemma RecentLogAfterEntry(log: seq<LogEntry>, e: LogEntry)
    ensures RecentLog([e] + log) == [e] + RecentLog(log)[..|RecentLog([e] + log)| - 1]
  {
    var r := RecentLog([e] + log);
    assert r[1..] == log[..|r| - 1];
  }

  /** What the chat call is told about the farm. */
  datatype ChatContext = ChatContext(
    fieldCount: nat,
    eventCount: nat,
    fields: seq<ChatFieldView>,
    events: seq<AnnotatedEvent>,
    recentLog: seq<LogEntry>)

  /** The context of `getSproutAIResponse`: counts, image-less fields, named events, the first five log entries. */
  function ChatContextOf(fields: seq<Field>, schedule: seq<IrrigationEvent>, log: seq<LogEntry>): (r: ChatContext)
    ensures r.fieldCount == |fields| == |r.fields| && r.eventCount == |schedule| == |r.events|
    ensures forall i :: 0 <= i < |fields| ==> r.fields[i] == ChatView(fields[i])
    ensures forall i :: 0 <= i < |schedule| ==> r.events[i] == Annotate(fields, schedule[i])
    ensures r.recentLog == RecentLog(log)
  {
    ChatContext(|fields|, |schedule|,
                seq(|fields|, i requires 0 <= i < |fields| => ChatView(fields[i])),
                seq(|schedule|, i requires 0 <= i < |schedule| => Annotate(fields, schedule[i])),
                RecentLog(log))
  }

  /** `getSproutAIResponse`: the model's text, or the fixed apology when the call fails. */
  function ChatReply(response: Outcome<string>): (r: string)
    ensures response.Ok? ==> r == response.value
    ensures response.Failed? ==> r == ChatFallback
  {
    if response.Ok? then response.value else ChatFallback
  }

  // ----------------------------------------------------------------- focus

  /** `Math.min(...xs)`: infinite for no arguments. */
  datatype Reading = Finite(value: int) | PosInfinity

  /** The lowest moisture reading over the fields. */
  function MinMoisture(fields: seq<Field>): (r: Reading)
    ensures r.PosInfinity? <==> |fields| == 0
    ensures r.Finite? ==> forall i :: 0 <= i < |fields| ==> r.value <= fields[i].soilMoisture
    ensures r.Finite? ==> exists i :: 0 <= i < |fields| && fields[i].soilMoisture == r.value
  {
    if |fields| == 0 then PosInfinity
    else
      match MinMoisture(fields[1..])
      case PosInfinity => Finite(fields[0].soilMoisture)
      case Finite(m) =>
        assert forall i :: 1 <= i < |fields| ==> fields[i] == fields[1..][i - 1];
        if fields[0].soilMoisture <= m then Finite(fields[0].soilMoisture)
        else
          var k :| 0 <= k < |fields[1..]| && fields[1..][k].soilMoisture == m;
          assert fields[k + 1].soilMoisture == m;
          Finite(m)
  }

  /** `fields.filter(f => f.soilMoisture < 40)`. */
  function LowFields(fields: seq<Field>): (r: seq<Field>)
    ensures |r| <= |fields|
    ensures forall f :: f in r <==> f in fields && f.soilMoisture < LowMoistureLine
  {
    if |fields| == 0 then []
    else (if fields[0].soilMoisture < LowMoistureLine then [fields[0]] else []) + LowFields(fields[1..])
  }

  /** The filter keeps the fields' order: filtering two parts is filtering their concatenation. */
  lemma {:induction false} LowFieldsAppend(a: seq<Field>, b: seq<Field>)
    ensures LowFields(a + b) == LowFields(a) + LowFields(b)
    decreases |a|
  {
    if |a| > 0 {
      assert (a + b)[1..] == a[1..] + b;
      LowFieldsAppend(a[1..], b);
    } else {
      assert a + b == b;
    }
  }

  /** `fields.filter(f => f.soilMoisture < 40).length`. */
  function LowMoistureCount(fields: seq<Field>): (r: nat)
    ensures r == |LowFields(fields)|
    ensures r <= |fields|
    ensures r == 0 <==> forall i :: 0 <= i < |fields| ==> fields[i].soilMoisture >= LowMoistureLine
  {
    if |fields| == 0 then 0
    else
      assert forall i :: 1 <= i < |fields| ==> fields[i] == fields[1..][i - 1];
      (if fields[0].soilMoisture < LowMoistureLine then 1 else 0) + LowMoistureCount(fields[1..])
  }

  predicate Below(r: Reading, bound: int) {
    r.Finite? && r.value < bound
  }

  /** Some field is counted as low exactly when the lowest reading is under 40. */
  lemma LowCountAgreesWithMin(fields: seq<Field>)
    ensures LowMoistureCount(fields) > 0 <==> Below(MinMoisture(fields), LowMoistureLine)
  {
    if LowMoistureCount(fields) > 0 {
      var i :| 0 <= i < |fields| && fields[i].soilMoisture < LowMoistureLine;
      assert MinMoisture(fields).value <= fields[i].soilMoisture;
    }
  }

  /** The figures the focus request reports. */
  datatype FocusFacts = FocusFacts(fieldCount: nat, lowCount: nat, lowest: Reading, eventCount: nat)

  function FocusFactsOf(fields: seq<Field>, schedule: seq<IrrigationEvent>): (r: FocusFacts)
    ensures r.fieldCount == |fields| && r.eventCount == |schedule|
    ensures r.lowCount == LowMoistureCount(fields) && r.lowest == MinMoisture(fields)
    ensures r.lowCount <= r.fieldCount
  {
    FocusFacts(|fields|, LowMoistureCount(fields), MinMoisture(fields), |schedule|)
  }

  /** `getSproutAIFocus`: the trimmed model text, or the fixed status line when the call fails. */
  function FocusReply(response: Outcome<string>): (r: string)
    ensures response.Ok? ==> IsTrimmed(r) && r == Trim(response.value)
    ensures response.Failed? ==> r == FocusFallback
  {
    if response.Ok? then Trim(response.value) else FocusFallback
  }

  /** Whitespace around a trimmed model answer is dropped. */
  lemma FocusReplyPadded(w: string, t: string, w': string)
    requires AllWhitespace(w) && AllWhitespace(w') && IsTrimmed(t)
    ensures FocusReply(Ok(w + t + w')) == t
  {
    TrimPadded(w, t, w');
  }

  /** A model answer that is already trimmed comes through unchanged. */
  lemma FocusReplyKeepsTrimmed(t: string)
    requires IsTrimmed(t)
    ensures FocusReply(Ok(t)) == t
  {
    assert "" + t + "" == t;
    TrimPadded("", t, "");
  }

  /** The fallback text is trimmed too, so a focus message never has whitespace at either end. */
  lemma FocusReplyTrimmed(response: Outcome<string>)
    ensures IsTrimmed(FocusReply(response))
  {
    var title, body, tail := "**System Status:**", " All parameters are currently stable.", " Monitoring for changes.";
    assert FocusFallback == title + body + tail;
    assert FocusFallback[0] == title[0] == '*';
    assert FocusFallback[|FocusFallback| - 1] == tail[|tail| - 1] == '.';
  }
}
