/**
 * The records shared by the AquaCrop core (types.ts): fields, irrigation
 * events, activity-log entries, chat messages and the environmental
 * snapshots. Instants are integer milliseconds since the epoch; soil
 * moisture is an integer percentage; coordinates, vegetation indices and
 * weather readings are carried as reals and never computed with.
 */
module Types {

  datatype Option<+T> = None | Some(value: T)

  /** The outcome of an asynchronous call that resolves or throws. */
  datatype Outcome<+T> = Ok(value: T) | Failed

  datatype GrowthStage = Seedling | Vegetative | Flowering | Maturity

  datatype SoilType = Clay | SandyLoam | SiltyClay | Loam | Silt

  datatype IrrigationSystem = Drip | Sprinkler | Pivot

  datatype UserPlan = TaniDasar | ManajerPro

  /** The browser's notification permission. */
  datatype Permission = Default | Granted | Denied

  datatype Location = Location(lat: real, lng: real)

  datatype Field = Field(
    id: string,
    name: string,
    cropTypes: seq<string>,
    growthStage: GrowthStage,
    soilType: SoilType,
    irrigationSystemType: IrrigationSystem,
    flowRate: int,
    location: Location,
    soilMoisture: int,
    soilMoistureHistory: seq<int>,
    imageUrl: string,
    ndvi: Option<real>)

  /**
   * The six values the field form edits (a `Field` without id, location,
   * moisture, history, image and vegetation index).
   */
  datatype FieldDetails = FieldDetails(
    name: string,
    cropTypes: seq<string>,
    growthStage: GrowthStage,
    soilType: SoilType,
    irrigationSystemType: IrrigationSystem,
    flowRate: int)

  /** A new field as the form hands it over: its details and the picked location. */
  datatype NewField = NewField(details: FieldDetails, location: Location)

  function DetailsOf(f: Field): FieldDetails {
    FieldDetails(f.name, f.cropTypes, f.growthStage, f.soilType, f.irrigationSystemType, f.flowRate)
  }

  datatype EventStatus = Scheduled | InProgress | Completed

  /**
   * A JavaScript `Date`: a time value in milliseconds, or the invalid date
   * that `new Date` yields for a string it cannot parse.
   */
  datatype Date = Time(ms: int) | InvalidDate

  datatype IrrigationEvent = IrrigationEvent(
    fieldId: string,
    startTime: Date,
    durationMinutes: real,
    status: EventStatus)

  datatype LogKind = Info | Warning | Action

  datatype LogEntry = LogEntry(timestamp: int, message: string, kind: LogKind)

  datatype Sender = User | AI

  /** A chat message; `isLoading` is the optional flag, absent meaning false. */
  datatype ChatMessage = ChatMessage(id: string, sender: Sender, text: string, isLoading: bool)

  datatype WeatherData = WeatherData(
    temperature: int,
    precipitation: real,
    windSpeed: int,
    relativeHumidity: real,
    et0: real)

  datatype GrowthData = GrowthData(solarRadiation: real, temperature: int, soilMoisture: Option<int>)

  /** `fields.find(f => f.id === id)`: the first field carrying the id. */
  function FindField(fields: seq<Field>, id: string): (r: Option<Field>)
    ensures r.None? <==> forall i :: 0 <= i < |fields| ==> fields[i].id != id
    ensures r.Some? ==> exists i :: 0 <= i < |fields| && fields[i] == r.value
                                    && fields[i].id == id
                                    && forall j :: 0 <= j < i ==> fields[j].id != id
  {
    if |fields| == 0 then None
    else if fields[0].id == id then Some(fields[0])
    else
      var r := FindField(fields[1..], id);
      r
  }

  /** `fields.find(...)?.name || fallback`: an empty name is falsy too. */
  function FieldNameOr(fields: seq<Field>, id: string, fallback: string): (r: string)
    ensures (FindField(fields, id).Some? && FindField(fields, id).value.name != "") ==>
              r == FindField(fields, id).value.name
    ensures (FindField(fields, id).None? || FindField(fields, id).value.name == "") ==> r == fallback
  {
    match FindField(fields, id)
    case Some(f) => if f.name != "" then f.name else fallback
    case None => fallback
  }
}
