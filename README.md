# GreenDelivery telemetry rules, modelled in Dafny

GreenDelivery tracks perishable and pharmaceutical shipments. Simulated sensors
produce readings of temperature, humidity, GPS position and Z acceleration. An
ingestion service or a Pub/Sub processor stores each reading. Fixed thresholds
then decide whether a cold-chain breach or an impact has to be recorded as an
alert.

The threshold rules and the store/alert/notify flow appear in four variants.
Each variant uses its own thresholds. This model keeps every variant as its code
has it and does not merge them into one policy:

| module | file | thresholds |
|---|---|---|
| `IngestApi` | `ingest_api/app/main.py` | temperature outside [2, 8]; g-force > 2.5 |
| `Procesador` | `PROCESADOR/main.py` | `temperatura` > 8.0; `acelerometro-ejeZ` > 3.0 |
| `FruitSensor` | `greendelivery-iot/step1-sensor/greendelivery_iot_sensor.py` | temperature > 8.0; Z acceleration > 3.0; humidity < 50 |
| `PharmaSensor` | `SENSOR/SIMULADOR.py` | temperature > 8.0; Z acceleration > 3.0; humidity > 90 |

The comparisons are strict, as in the code. `Builtins` holds the Python
built-ins the code relies on: `None`, `str.join`, `str.startswith`, `min` and
`max`.

Effects are not performed. Database inserts, Firestore writes, webhook posts,
HTTP sends, random draws and clock readings become parameters. These are the
`Env`, `Firestore`, `Clock`, `Muestra`, `Arranque` and `Ciclo` values. The
handlers return their HTTP answer together with the list of effects they
attempted, in order, and each effect's outcome. Both simulators are classes
because they move their GPS position in place. The fruit sensor also keeps its
send and alert counters as fields. The pharmaceutical sensor's demo keeps its
counters in local variables and returns them. Every method states the new
values of the fields it changes, the final position of a whole run included.

Points of the code worth knowing before reading the model:

- **Thresholds.** There is no shared rule set: each of the four variants keeps its own thresholds, listed in the table above.
- **Rejected bodies.** The ingest route rejects an invalid body with FastAPI's 422.
- **Latitude and longitude.** The code puts no range check on `lat`/`lon`.
- **Field names.** The Pub/Sub processor reads the key `acelerometro-ejeZ`, with a hyphen. Both simulators publish `acelerometro_ejeZ`, with an underscore. `Procesador.UnderscoreKeyIsIgnored` shows that, for such a payload, the impact rule can never fire.

## Model

| member | source | states |
|---|---|---|
| `IngestApi.TempRange` | ingest_api/app/main.py:19-26 | accepts exactly None or a temperature in [-50, 100] inclusive and returns it unchanged; otherwise it fails with the field's message |
| `IngestApi.HumRange` | ingest_api/app/main.py:28-35 | accepts exactly None or a humidity in [0, 100] and returns it unchanged; otherwise it fails with its message |
| `IngestApi.GRange` | ingest_api/app/main.py:37-44 | accepts exactly None or a g-force in [0, 20] and returns it unchanged; otherwise it fails with its message |
| `IngestApi.ParcelIdErrors` | ingest_api/app/main.py:11 | no error iff `parcel_id` has 1 to 64 characters, else exactly one error for that field |
| `IngestApi.Validate` | ingest_api/app/main.py:10-44 | the record is accepted iff every constrained field is in range and is then unchanged; a rejection reports each violated field and only violated fields (1 to 4 errors) |
| `IngestApi.MaybeAlert` | ingest_api/app/main.py:55-61 | the temperature reason appears iff temperature is present and > 8 or < 2; the g-force reason iff g-force is present and > 2.5; nothing else appears; at most 2 reasons, temperature first |
| `IngestApi.MaybeAlertIgnoresHumidityAndPosition` | ingest_api/app/main.py:55-61 | humidity, latitude and longitude never change the reasons |
| `IngestApi.MaybeAlertBoundaries` | ingest_api/app/main.py:57-59 | temperature exactly 2 or 8 and g-force exactly 2.5 yield no reason |
| `IngestApi.Ingest` | ingest_api/app/main.py:63-116 | the telemetry insert is always the first effect; if it fails: 503 and no other effect; otherwise 200 `{ok: true, alert_reasons}`, whatever the alert insert and webhook do; the alert row (second effect; WARNING, rule, reasons joined by "; ", "{}") is attempted iff some reason fired; the webhook (third effect) iff, in addition, the URL starts with "http" |
| `IngestApi.AttemptsByPosition` | ingest_api/app/main.py:86-114 | in a trace ordered telemetry insert, alert insert, webhook post, an alert insert was attempted iff the trace has a second effect, and a post iff it has a third |
| `IngestApi.HandleIngest` | ingest_api/app/main.py:10-116 | an invalid body gets 422 with its errors and causes no effect; a valid one reaches the handler: the full telemetry row is inserted first, the answer is `{ok: true, alert_reasons}` iff it is stored and 503 otherwise, and the alert row and webhook post, with their contents, are attempted under the same conditions as in `Ingest` |
| `IngestApi.AlertReasonCarriesEveryReason` | ingest_api/app/main.py:93-98 | every fired reason occurs verbatim in the alert row's `reason` text |
| `Builtins.JoinContainsEachPart` | ingest_api/app/main.py:98 | every part occurs verbatim in `sep.join(parts)` |
| `Procesador.IdEnvioDelAlerta` | PROCESADOR/main.py:42-80 | the alert carries `ID_envio` as stored: a present but null id stays null in the alert; only an absent id becomes `ID_Desconocido` |
| `Procesador.TemperaturaNoComparableDetieneAlerta` | PROCESADOR/main.py:65-84 | a text, list or object `temperatura` raises TypeError and ends the rule section: no alert is written, even when `acelerometro-ejeZ` is above 3.0 |
| `Procesador.AceleracionNoComparableDetieneAlerta` | PROCESADOR/main.py:65-84 | a text, list or object `acelerometro-ejeZ` raises before the alert write: no alert, even when `temperatura` is above 8.0 |
| `Procesador.BooleanosNoDisparan` | PROCESADOR/main.py:65-70 | a boolean `temperatura` compares as 0 or 1 and never fires, so the acceleration alone decides; two boolean values never raise an alert |
| `Procesador.AlertaDebidaOnNumbers` | PROCESADOR/main.py:16-70 | on numeric or absent values an alert is due iff `temperatura` > 8.0 or `acelerometro-ejeZ` > 3.0, both strict |
| `Procesador.StampKeepsRules` | PROCESADOR/main.py:51-62 | adding `timestamp_procesado_utc` before the rules run does not change whether an alert is due |
| `Procesador.UnderscoreKeyIsIgnored` | PROCESADOR/main.py:62 | a payload that carries its acceleration under `acelerometro_ejeZ` and a temperature of at most 8.0 never raises an alert |
| `Procesador.ProcesarAlertaYGuardar` | PROCESADOR/main.py:22-87 | no database: 500 and nothing else; malformed envelope: 400; undecodable body: 200 "Error decodificando", nothing stored; otherwise the stamped reading is written first; if that write fails: 500, nothing more; else always 200 "Procesado"; a second write (an alert with the `ID_envio` value or `ID_Desconocido`, the stamped reading, `resuelta = false`) happens iff the rules run without error and one fires; never more than one alert |
| `FruitSensor.DetectarAnomalias` | greendelivery-iot/step1-sensor/greendelivery_iot_sensor.py:121-160 | one alert per broken rule (temperature > 8.0, Z acceleration > 3.0, humidity < 50), so at most 3 |
| `FruitSensor.ReglasAnomalias` | greendelivery-iot/step1-sensor/greendelivery_iot_sensor.py:121-160 | TEMPERATURA_ALTA/CRITICA iff temperature > 8.0; IMPACTO_DETECTADO/ALTA iff Z acceleration > 3.0; HUMEDAD_BAJA/MEDIA iff humidity < 50; nothing else; strictly in that order; each carries the reading's timestamp |
| `FruitSensor.TotalAlertasSnoc` | greendelivery-iot/step1-sensor/greendelivery_iot_sensor.py:224-226 | one more reading adds exactly its own alerts to the running total |
| `FruitSensor.UnPasoMas` | greendelivery-iot/step1-sensor/greendelivery_iot_sensor.py:269-273 | one more step adds its own success and its own GPS steps to the run's totals |
| `FruitSensor.LecturasDeSnoc` | greendelivery-iot/step1-sensor/greendelivery_iot_sensor.py:269-273 | the reading generated in step k extends the readings of the steps before it, step for step |
| `FruitSensor.LecturasDeEnCadaPaso` | greendelivery-iot/step1-sensor/greendelivery_iot_sensor.py:269-273 | in a run, reading i has step i's timestamp and the values drawn in step i |
| `FruitSensor.TotalAlertasBound` | greendelivery-iot/step1-sensor/greendelivery_iot_sensor.py:224-226 | n readings add at most 3n to the alert counter |
| `FruitSensor.HumedadGenerada` | greendelivery-iot/step1-sensor/greendelivery_iot_sensor.py:90-91 | generated humidity lies in [0, 100], equals the drawn value when that is in range and the nearer bound otherwise |
| `FruitSensor.GreenDeliveryIoTSensor.constructor` | greendelivery-iot/step1-sensor/greendelivery_iot_sensor.py:37-64 | defaults for empty id, URL and position; all three counters start at 0, so `envios_exitosos <= total_envios` holds |
| `FruitSensor.GreenDeliveryIoTSensor.GenerarDatosTelemetria` | greendelivery-iot/step1-sensor/greendelivery_iot_sensor.py:71-119 | the position moves by the drawn steps; the reading carries the new position, the id, the drawn values and a humidity clamped to [0, 100] |
| `FruitSensor.GreenDeliveryIoTSensor.EnviarDatos` | greendelivery-iot/step1-sensor/greendelivery_iot_sensor.py:196-231 | `total_envios` + 1; `envios_exitosos` + 1 iff the send succeeded; `alertas_generadas` grows by the number of detected alerts whether or not it succeeded; `envios_exitosos <= total_envios` is kept |
| `FruitSensor.GreenDeliveryIoTSensor.IniciarMonitoreo` | greendelivery-iot/step1-sensor/greendelivery_iot_sensor.py:245-286 | after n steps: `total_envios` + n, `envios_exitosos` + the successful sends, `alertas_generadas` + the alerts of the n generated readings; the position moved by the sum of the n drawn GPS steps; reading i comes from the values drawn in step i; the invariant holds throughout |
| `PharmaSensor.DetectarAlertasFarmaceuticas` | SENSOR/SIMULADOR.py:103-145 | one alert per broken rule (temperature > 8.0, Z acceleration > 3.0, humidity > 90), so at most 3 |
| `PharmaSensor.ReglasFarmaceuticas` | SENSOR/SIMULADOR.py:103-145 | CADENA_FRIO_ROTA/CRITICA iff temperature > 8.0; IMPACTO_DETECTADO/ALTA iff Z acceleration > 3.0; HUMEDAD_EXCESIVA/MEDIA iff humidity > 90; nothing else; strictly in that order; each carries its triggering value |
| `PharmaSensor.NoLowHumidityRule` | SENSOR/SIMULADOR.py:135-143 | any humidity at or below 90, however low, raises the same alerts |
| `PharmaSensor.ClasificarTemperatura` | SENSOR/SIMULADOR.py:194-200 | exactly one of: out of range iff > 8.0, too cold iff < 2.0, correct iff in [2.0, 8.0] |
| `PharmaSensor.AlertasVisiblesSnoc` | SENSOR/SIMULADOR.py:185-191 | one more alert is shown after the others iff it is not MEDIA |
| `PharmaSensor.AlertasVisiblesMembership` | SENSOR/SIMULADOR.py:185-191 | an alert is shown iff it was detected and is not MEDIA |
| `PharmaSensor.AlertasVisiblesSinMedia` | SENSOR/SIMULADOR.py:185-191 | when no detected alert is MEDIA, all of them are shown, in order |
| `PharmaSensor.MostrarAlertas` | SENSOR/SIMULADOR.py:184-191 | the printing loop shows exactly the CRITICA and ALTA alerts, in detection order |
| `PharmaSensor.TemperaturaGenerada` | SENSOR/SIMULADOR.py:73 | generated temperature is >= 0, equal to the drawn value when that is not negative and 0 otherwise |
| `PharmaSensor.HumedadGenerada` | SENSOR/SIMULADOR.py:76 | generated humidity lies in [30, 95], equal to the drawn value when in range and the nearer bound otherwise |
| `PharmaSensor.UnPasoMas` | SENSOR/SIMULADOR.py:244-252 | one more step adds its own 200 answer and its own GPS steps to the run's totals |
| `PharmaSensor.LecturasDeSnoc` | SENSOR/SIMULADOR.py:244-252 | the reading generated in step k extends the readings of the steps before it, step for step |
| `PharmaSensor.LecturasDeEnCadaPaso` | SENSOR/SIMULADOR.py:244-252 | in a run, reading i has step i's timestamp and the values drawn in step i |
| `PharmaSensor.ExitososAtMost` | SENSOR/SIMULADOR.py:248-252 | successful sends never outnumber the steps |
| `PharmaSensor.TotalAlertasSnoc` | SENSOR/SIMULADOR.py:246-247 | one more reading adds exactly its own alerts to the running total |
| `PharmaSensor.TotalAlertasBound` | SENSOR/SIMULADOR.py:246-247 | n readings add at most 3n to `alertas_generadas` |
| `PharmaSensor.GreenDeliveryPharmaIoTSensor.constructor` | SENSOR/SIMULADOR.py:35-58 | defaults for an empty id, URL and position (the default endpoint kept as written) |
| `PharmaSensor.GreenDeliveryPharmaIoTSensor.GenerarDatosSensor` | SENSOR/SIMULADOR.py:60-101 | the position moves by the drawn steps; the reading has temperature >= 0, humidity in [30, 95], the drawn acceleration and battery, and the fixed cargo fields |
| `PharmaSensor.GreenDeliveryPharmaIoTSensor.EnviarDatos` | SENSOR/SIMULADOR.py:147-221 | success iff the endpoint answers 200; only then is the alert and status view (`Vista`) produced: the CRITICA and ALTA alerts in detection order, the temperature status, the impact flag iff > 3.0 and the battery flag iff > 20 |
| `PharmaSensor.GreenDeliveryPharmaIoTSensor.DemoRapida` | SENSOR/SIMULADOR.py:223-252 | `contador` is the number of steps; `exitosos` the sends answered 200, never more than `contador`; `alertas_generadas` the sum of the alerts of every generated reading; reading i comes from the values drawn in step i; the position moved by the sum of the drawn GPS steps |

## Left out

- `INGESTA/main.py`, `edge/simulator.py` and `analytics/evaluate_rule.py` are not part of this model. They are a publish wrapper, an MQTT publishing loop and a metrics script, and none of them holds rule logic.
- Random draws are parameters (`Muestra`, `Arranque`). Their distributions, such as the 3%, 15% and 8% chances and the uniform ranges, are described but not enforced. `round(...)` on generated values is not modelled.
- Sensor values are `real`. Floating-point rounding, NaN and infinities are not modelled.
- Database and HTTP clients are replaced by success flags: `get_conn` and its environment defaults, the SQL text, psycopg2, the Firestore client, `requests`/`urllib`, and the 3, 10 and 15 second timeouts. The choice between `requests` and `urllib` in the fruit simulator is not modelled. Only its success flag is.
- The Pub/Sub processor does not decode anything itself. Base64, UTF-8 and JSON decoding of the message body become `Envelope.decoded`. Python truthiness of the parsed body becomes `Envelope.truthy`. Lists and objects inside the document are one `Composite` value. `datetime.utcnow()` becomes `Clock`.
- A body that lacks `parcel_id` or `ts` is rejected by the request model with 422 (ingest_api/app/main.py:11-12, neither has a default). The model cannot express it: in `Telemetry` both fields are always present, so `Validate` and `HandleIngest` do not cover that 422.
- `IngestApi.Telemetry.ts` is the timestamp already converted with `astimezone(timezone.utc)` and written in ISO form. Parsing it, and pydantic's type coercion of the other fields, are not modelled. Pydantic's own error wording is reduced to `TooShort`/`TooLong`.
- Alert messages and descriptions that format a float into text are not modelled. This covers `mensaje` in the fruit simulator and `descripcion` in the pharmaceutical one. Log lines, emoji and every other `print` are left out as well. The pharmaceutical `EnviarDatos` returns what it would show (a `Vista`) instead of printing it. Its echo of the cloud's JSON answer is not modelled, and neither are the messages it prints on each failure path: the HTTP error with the response text, the timeout, the connection error and the unexpected error (SIMULADOR.py:209-220).
- The two success percentages are not modelled (greendelivery_iot_sensor.py:235, SIMULADOR.py:269). They are float division used for display only. `mostrar_estadisticas` is left out for the same reason.
- In `iniciar_monitoreo` and `demo_rapida`, the wall clock decides how many steps run. So do `time.sleep` and `KeyboardInterrupt`. The model takes that list of steps as input (`Ciclo`).
- FruitSensor.GreenDeliveryIoTSensor.IniciarMonitoreo: a step cut short by Ctrl+C is not modelled; the contract covers whole steps only. `KeyboardInterrupt` is not an `Exception`, so the send's handlers do not catch it. If it lands during the send (greendelivery_iot_sensor.py:206-212), the statistics printed afterwards count that step in `total_envios` but not its alerts, and possibly not its success.
- PharmaSensor.GreenDeliveryPharmaIoTSensor.DemoRapida: a step cut short by Ctrl+C is not modelled either. If the interrupt lands during the send (SIMULADOR.py:247-252), `alertas_generadas` already includes that reading's alerts while `contador` and `exitosos` do not count the step.
- `monitoreo_continuo` (SIMULADOR.py:274-302) is not modelled. It is an endless loop with the `contador`/`exitosos` counting of `demo_rapida` and no alert count. The CLI menus in both `main()` functions are not modelled either.
- Every reading a simulator builds has all its keys, so the `KeyError` that `detectar_anomalias` or `detectar_alertas_farmaceuticas` would raise on a hand-made dict with a missing key is not modelled.
