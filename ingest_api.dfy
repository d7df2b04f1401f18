/** The FastAPI ingest service: the `Telemetry` request model with its field
    constraints, the rule evaluator `maybe_alert`, and the `POST /ingest`
    handler that stores the reading, evaluates the rules, stores an alert row
    on a best-effort basis and posts to a webhook.

    The two database inserts and the webhook post are not performed here: the
    handler receives their outcomes in an `Env` and returns the list of
    effects it attempted, in order, next to its HTTP response. */
module IngestApi {
  import opened Builtins

  /** A telemetry record as it arrives in the request body. `ts` is the
      reading's instant, already converted to UTC and written in ISO 8601. */
  datatype Telemetry = Telemetry(
    parcelId: string,
    ts: string,
    temperatureC: Option<real>,
    humidityPct: Option<real>,
    gForce: Option<real>,
    lat: Option<real>,
    lon: Option<real>)

  // ---------------------------------------------------------------------
  // Field constraints of the request model
  // ---------------------------------------------------------------------

  const PARCEL_ID_MIN_LENGTH: nat := 1
  const PARCEL_ID_MAX_LENGTH: nat := 64
  const TEMPERATURE_MIN: real := -50.0
  const TEMPERATURE_MAX: real := 100.0
  const HUMIDITY_MIN: real := 0.0
  const HUMIDITY_MAX: real := 100.0
  const G_FORCE_MIN: real := 0.0
  const G_FORCE_MAX: real := 20.0

  const TEMPERATURE_RANGE_MESSAGE := "temperature_c fuera de rango físico"
  const HUMIDITY_RANGE_MESSAGE := "humidity_pct fuera de rango [0,100]"
  const G_FORCE_RANGE_MESSAGE := "g_force fuera de rango [0,20]"

  datatype Field = ParcelId | TemperatureC | HumidityPct | GForce

  /** One entry of the validation error list. */
  datatype FieldError =
    | TooShort(field: Field)
    | TooLong(field: Field)
    | OutOfRange(field: Field, message: string)

  /** Inclusive interval membership, the physical range a field must lie in. */
  predicate InRange(v: Option<real>, lo: real, hi: real)
  {
    v.None? || (lo <= v.value && v.value <= hi)
  }

  /** Validator `temp_range`: None or any value of [-50, 100] is returned unchanged. */
  function TempRange(v: Option<real>): (r: Result<Option<real>, string>)
    ensures r.Ok? <==> InRange(v, -50.0, 100.0)
    ensures r.Ok? ==> r.value == v
    ensures r.Err? ==> r.error == TEMPERATURE_RANGE_MESSAGE
  {
    if v.None? then Ok(v)
    else if v.value < TEMPERATURE_MIN || v.value > TEMPERATURE_MAX then Err(TEMPERATURE_RANGE_MESSAGE)
    else Ok(v)
  }

  /** Validator `hum_range`: None or any value of [0, 100]. */
  function HumRange(v: Option<real>): (r: Result<Option<real>, string>)
    ensures r.Ok? <==> InRange(v, 0.0, 100.0)
    ensures r.Ok? ==> r.value == v
    ensures r.Err? ==> r.error == HUMIDITY_RANGE_MESSAGE
  {
    if v.None? then Ok(v)
    else if v.value < HUMIDITY_MIN || v.value > HUMIDITY_MAX then Err(HUMIDITY_RANGE_MESSAGE)
    else Ok(v)
  }

  /** Validator `g_range`: None or any value of [0, 20]. */
  function GRange(v: Option<real>): (r: Result<Option<real>, string>)
    ensures r.Ok? <==> InRange(v, 0.0, 20.0)
    ensures r.Ok? ==> r.value == v
    ensures r.Err? ==> r.error == G_FORCE_RANGE_MESSAGE
  {
    if v.None? then Ok(v)
    else if v.value < G_FORCE_MIN || v.value > G_FORCE_MAX then Err(G_FORCE_RANGE_MESSAGE)
    else Ok(v)
  }

  /** The `min_length`/`max_length` constraint on `parcel_id`. */
  function ParcelIdErrors(parcelId: string): (errs: seq<FieldError>)
    ensures errs == [] <==> 1 <= |parcelId| <= 64
    ensures |errs| <= 1
    ensures errs != [] ==> errs[0].field == ParcelId
  {
    if |parcelId| < PARCEL_ID_MIN_LENGTH then [TooShort(ParcelId)]
    else if |parcelId| > PARCEL_ID_MAX_LENGTH then [TooLong(ParcelId)]
    else []
  }

  /** What a field validator's outcome adds to the error list. */
  function ValidatorErrors(field: Field, r: Result<Option<real>, string>): seq<FieldError>
  {
    if r.Ok? then [] else [OutOfRange(field, r.error)]
  }

  /** The constraint each field must meet, stated independently of the validators. */
  predicate FieldValid(t: Telemetry, f: Field)
  {
    match f
    case ParcelId => 1 <= |t.parcelId| <= 64
    case TemperatureC => InRange(t.temperatureC, -50.0, 100.0)
    case HumidityPct => InRange(t.humidityPct, 0.0, 100.0)
    case GForce => InRange(t.gForce, 0.0, 20.0)
  }

  /** A record the request model accepts. */
  predicate Valid(t: Telemetry)
  {
    FieldValid(t, ParcelId) && FieldValid(t, TemperatureC)
    && FieldValid(t, HumidityPct) && FieldValid(t, GForce)
  }

  /** Building the request model: every field is checked and every violation
      is collected, in declaration order; the record itself is not changed. */
  function Validate(t: Telemetry): (r: Result<Telemetry, seq<FieldError>>)
    ensures r.Ok? <==> Valid(t)
    ensures r.Ok? ==> r.value == t
    ensures r.Err? ==> r.error != [] && |r.error| <= 4
    ensures r.Err? ==> forall e :: e in r.error ==> !FieldValid(t, e.field)
    ensures r.Err? ==> forall f: Field :: !FieldValid(t, f) ==> exists e :: e in r.error && e.field == f
  {
    var errs := ParcelIdErrors(t.parcelId)
      + ValidatorErrors(TemperatureC, TempRange(t.temperatureC))
      + ValidatorErrors(HumidityPct, HumRange(t.humidityPct))
      + ValidatorErrors(GForce, GRange(t.gForce));
    if errs == [] then Ok(t) else Err(errs)
  }

  // ---------------------------------------------------------------------
  // Rule evaluation
  // ---------------------------------------------------------------------

  const TEMPERATURE_REASON := "Temperature out of 2-8C range"
  const G_FORCE_REASON := "G-force spike > 2.5"

  /** `maybe_alert`: the reasons the record raises, temperature first. */
  function MaybeAlert(t: Telemetry): (reasons: seq<string>)
    ensures TEMPERATURE_REASON in reasons <==>
      t.temperatureC.Some? && (t.temperatureC.value > 8.0 || t.temperatureC.value < 2.0)
    ensures G_FORCE_REASON in reasons <==> t.gForce.Some? && t.gForce.value > 2.5
    ensures forall i :: 0 <= i < |reasons| ==> reasons[i] == TEMPERATURE_REASON || reasons[i] == G_FORCE_REASON
    ensures |reasons| <= 2
    ensures |reasons| == 2 ==> reasons == [TEMPERATURE_REASON, G_FORCE_REASON]
  {
    assert TEMPERATURE_REASON[0] != G_FORCE_REASON[0];
    var temperature :=
      if t.temperatureC.Some? && (t.temperatureC.value > 8.0 || t.temperatureC.value < 2.0)
      then [TEMPERATURE_REASON] else [];
    var gForce := if t.gForce.Some? && t.gForce.value > 2.5 then [G_FORCE_REASON] else [];
    temperature + gForce
  }

  /** Humidity and position never contribute a reason. */
  lemma MaybeAlertIgnoresHumidityAndPosition(t: Telemetry, h: Option<real>, lat: Option<real>, lon: Option<real>)
    ensures MaybeAlert(t.(humidityPct := h, lat := lat, lon := lon)) == MaybeAlert(t)
  {
  }

  /** The bounds 2 and 8 themselves are inside the allowed band, and 2.5 G is not a spike. */
  lemma MaybeAlertBoundaries(t: Telemetry)
    requires t.temperatureC == Some(2.0) || t.temperatureC == Some(8.0) || t.temperatureC.None?
    requires t.gForce == Some(2.5) || t.gForce.None?
    ensures MaybeAlert(t) == []
  {
  }

  // ---------------------------------------------------------------------
  // The POST /ingest handler
  // ---------------------------------------------------------------------

  const ALERT_SEVERITY := "WARNING"
  const ALERT_KIND := "rule"
  const ALERT_METADATA := "{}"

  /** A row of the `telemetry` table. */
  datatype TelemetryRow = TelemetryRow(
    parcelId: string, ts: string,
    temperatureC: Option<real>, humidityPct: Option<real>, gForce: Option<real>,
    lat: Option<real>, lon: Option<real>)

  /** A row of the `alerts` table. */
  datatype AlertRow = AlertRow(
    parcelId: string, ts: string, severity: string, kind: string, reason: string, metadata: string)

  /** What the outside world answers: whether each insert commits, whether the
      webhook post goes through, and the `WEBHOOK_URL` setting ("" when unset). */
  datatype Env = Env(
    telemetryInsertOk: bool,
    alertInsertOk: bool,
    webhookUrl: string,
    webhookPostOk: bool)

  /** An external effect the handler attempted, with its outcome. */
  datatype Effect =
    | InsertTelemetry(row: TelemetryRow, committed: bool)
    | InsertAlert(alert: AlertRow, committed: bool)
    | PostWebhook(url: string, text: string, delivered: bool)

  datatype Response =
    | Ok200(ok: bool, alertReasons: seq<string>)   // {"ok": True, "alert_reasons": reasons}
    | DbError503                                   // HTTPException(503, "DB error: ...")
    | Unprocessable422(errors: seq<FieldError>)    // the request model rejected the body

  function Status(r: Response): int
  {
    match r
    case Ok200(_, _) => 200
    case DbError503 => 503
    case Unprocessable422(_) => 422
  }

  /** The webhook message: parcel, instant and the reasons joined by ", ". */
  function WebhookText(payload: Telemetry, reasons: seq<string>): string
  {
    "[GreenDelivery] Alerta " + payload.parcelId + " @ " + payload.ts + " — " + Join(", ", reasons)
  }

  predicate AttemptsAlertInsert(trace: seq<Effect>)
  {
    exists e :: e in trace && e.InsertAlert?
  }

  predicate AttemptsWebhook(trace: seq<Effect>)
  {
    exists e :: e in trace && e.PostWebhook?
  }

  /** In a trace that holds the telemetry insert first, then possibly the
      alert insert, then possibly the webhook post, an alert insert was
      attempted iff the trace goes past its first effect, and a post iff it
      holds all three. */
  lemma AttemptsByPosition(trace: seq<Effect>)
    requires 1 <= |trace| <= 3 && trace[0].InsertTelemetry?
    requires |trace| >= 2 ==> trace[1].InsertAlert?
    requires |trace| == 3 ==> trace[2].PostWebhook?
    ensures AttemptsAlertInsert(trace) <==> |trace| >= 2
    ensures AttemptsWebhook(trace) <==> |trace| == 3
  {
    if |trace| >= 2 {
      assert trace[1] in trace;
    }
    if |trace| == 3 {
      assert trace[2] in trace;
    }
  }

  /** `ingest`: store the reading (503 and nothing else on failure), evaluate
      the rules, then, only when some rule fired, insert one alert row whose
      failure is swallowed and post to the webhook if its URL starts with
      "http". Once the reading is stored the answer is always 200. */
  method Ingest(payload: Telemetry, env: Env) returns (resp: Response, trace: seq<Effect>)
    ensures 1 <= |trace| <= 3
    ensures trace[0] == InsertTelemetry(
      TelemetryRow(payload.parcelId, payload.ts, payload.temperatureC, payload.humidityPct,
                   payload.gForce, payload.lat, payload.lon),
      env.telemetryInsertOk)
    ensures !env.telemetryInsertOk ==> resp == DbError503 && |trace| == 1
    ensures env.telemetryInsertOk ==> resp == Ok200(true, MaybeAlert(payload))
    ensures |trace| >= 2 <==> env.telemetryInsertOk && MaybeAlert(payload) != []
    ensures |trace| >= 2 ==> trace[1] == InsertAlert(
      AlertRow(payload.parcelId, payload.ts, "WARNING", "rule", Join("; ", MaybeAlert(payload)), "{}"),
      env.alertInsertOk)
    ensures |trace| == 3 <==>
      env.telemetryInsertOk && MaybeAlert(payload) != [] && StartsWith(env.webhookUrl, "http")
    ensures |trace| == 3 ==>
      trace[2] == PostWebhook(env.webhookUrl, WebhookText(payload, MaybeAlert(payload)), env.webhookPostOk)
    ensures AttemptsAlertInsert(trace) <==> env.telemetryInsertOk && MaybeAlert(payload) != []
    ensures AttemptsWebhook(trace) <==>
      env.telemetryInsertOk && MaybeAlert(payload) != [] && StartsWith(env.webhookUrl, "http")
  {
    var row := TelemetryRow(payload.parcelId, payload.ts, payload.temperatureC, payload.humidityPct,
                            payload.gForce, payload.lat, payload.lon);
    trace := [InsertTelemetry(row, env.telemetryInsertOk)];
    if !env.telemetryInsertOk {
      resp := DbError503;
      AttemptsByPosition(trace);
      return;
    }

    var reasons := MaybeAlert(payload);
    if reasons != [] {
      var alert := AlertRow(payload.parcelId, payload.ts, ALERT_SEVERITY, ALERT_KIND,
                            Join("; ", reasons), ALERT_METADATA);
      // a failed insert is swallowed: the effect is recorded and processing goes on
      trace := trace + [InsertAlert(alert, env.alertInsertOk)];

      if StartsWith(env.webhookUrl, "http") {
        // a failed post is swallowed too
        trace := trace + [PostWebhook(env.webhookUrl, WebhookText(payload, reasons), env.webhookPostOk)];
      }
    }
    resp := Ok200(true, reasons);
    AttemptsByPosition(trace);
  }

  /** The route as FastAPI runs it: the body is first turned into the request
      model; a rejected body is answered with 422 before the handler runs, so
      nothing is stored or sent. */
  method HandleIngest(body: Telemetry, env: Env) returns (resp: Response, trace: seq<Effect>)
    ensures !Valid(body) ==> trace == [] && resp == Unprocessable422(Validate(body).error)
    ensures Valid(body) ==>
      && 1 <= |trace| <= 3
      && trace[0] == InsertTelemetry(
           TelemetryRow(body.parcelId, body.ts, body.temperatureC, body.humidityPct, body.gForce, body.lat, body.lon),
           env.telemetryInsertOk)
      && resp == (if env.telemetryInsertOk then Ok200(true, MaybeAlert(body)) else DbError503)
      && (|trace| >= 2 ==> trace[1] == InsertAlert(
            AlertRow(body.parcelId, body.ts, "WARNING", "rule", Join("; ", MaybeAlert(body)), "{}"),
            env.alertInsertOk))
      && (|trace| == 3 ==>
            trace[2] == PostWebhook(env.webhookUrl, WebhookText(body, MaybeAlert(body)), env.webhookPostOk))
    ensures Status(resp) == 200 <==> Valid(body) && env.telemetryInsertOk
    ensures Status(resp) == 503 <==> Valid(body) && !env.telemetryInsertOk
    ensures resp.Ok200? ==> resp.alertReasons == MaybeAlert(body)
    ensures AttemptsAlertInsert(trace) <==> Valid(body) && env.telemetryInsertOk && MaybeAlert(body) != []
    ensures AttemptsWebhook(trace) <==>
      Valid(body) && env.telemetryInsertOk && MaybeAlert(body) != [] && StartsWith(env.webhookUrl, "http")
  {
    var model := Validate(body);
    if model.Err? {
      resp := Unprocessable422(model.error);
      trace := [];
      return;
    }
    resp, trace := Ingest(model.value, env);
  }

  /** Every fired reason reaches the alert row's `reason` column verbatim. */
  lemma AlertReasonCarriesEveryReason(payload: Telemetry, i: nat)
    requires i < |MaybeAlert(payload)|
    ensures Contains(Join("; ", MaybeAlert(payload)), MaybeAlert(payload)[i])
  {
    JoinContainsEachPart("; ", MaybeAlert(payload), i);
  }
}
