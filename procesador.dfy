/** The Pub/Sub push handler `procesar_alerta_y_guardar`: decode the
    envelope, always store the reading in Firestore, then apply the two
    business rules and store at most one alert document.

    Firestore, the clock and the decoding of the message body are not
    performed here: the handler receives their outcomes and returns the
    Firestore writes it attempted, in order, next to its HTTP answer. */
module Procesador {
  import opened Builtins

  /** A value of the decoded JSON document, plus the timestamp type the
      handler itself stores. Lists and objects are not inspected by the rules
      and are lumped together. */
  datatype Value =
    | Null
    | Bool(b: bool)
    | Num(n: real)
    | Str(s: string)
    | Composite
    | Timestamp(instant: int)

  /** A decoded reading: a JSON object. */
  type Document = map<string, Value>

  const COLLECTION_NAME := "envios_telemetria"
  const ALERT_COLLECTION := "alertas_generadas"
  const TEMP_MAXIMA: real := 8.0
  const ACELEROMETRO_MAXIMO: real := 3.0
  const TEMPERATURA_KEY := "temperatura"
  const ACELEROMETRO_KEY := "acelerometro-ejeZ"
  const ID_KEY := "ID_envio"
  const PROCESADO_KEY := "timestamp_procesado_utc"
  const ID_DESCONOCIDO := "ID_Desconocido"

  /** What `request.get_json(silent=True)` produced, when it produced
      anything: its Python truthiness, whether it has a `'message'` key, and
      the document that base64-decoding, UTF-8-decoding and JSON-parsing
      `message.data` yields (None when any of those steps raises, or when the
      parsed data is not an object, whose `.get` then raises). A truthy
      envelope that is not a container, such as a JSON number, makes the
      `'message' in envelope` test itself raise; that case is answered 200
      "Error decodificando", not 400, and is written here as `hasMessage`
      true with `decoded` None. */
  datatype Envelope = Envelope(truthy: bool, hasMessage: bool, decoded: Option<Document>)

  /** The Firestore client: whether it was created at start-up, and whether
      each of the two `add` calls succeeds. */
  datatype Firestore = Firestore(connected: bool, addReadingOk: bool, addAlertOk: bool)

  /** The two `datetime.utcnow()` readings, in the order they are taken. */
  datatype Clock = Clock(procesado: int, alerta: int)

  /** The alert document written to `alertas_generadas`. */
  datatype AlertaData = AlertaData(idEnvio: Value, datosDelIncidente: Document, timestampAlertaUtc: int, resuelta: bool)

  /** A Firestore write the handler attempted, with its outcome. */
  datatype Effect =
    | AddReading(collection: string, doc: Document, succeeded: bool)
    | AddAlert(collection: string, alerta: AlertaData, succeeded: bool)

  datatype Response = Response(text: string, status: int)

  const ERROR_INTERNO := Response("Error interno", 500)
  const PETICION_INVALIDA := Response("Petición inválida", 400)
  const ERROR_DECODIFICANDO := Response("Error decodificando", 200)
  const ERROR_GUARDANDO := Response("Error guardando en DB", 500)
  const PROCESADO := Response("Procesado", 200)

  /** `datos.get(key, default)`: the stored value when the key is present
      (even a JSON null), the default otherwise. */
  function GetOr(datos: Document, key: string, default: Value): Value
  {
    if key in datos then datos[key] else default
  }

  /** Outcome of the guarded comparison `x is not None and x > limit`. */
  datatype Comparison = Above | NotAbove | Raises

  /** Python's `x is not None and x > limit`: None short-circuits, numbers
      and booleans compare (True as 1), anything else raises TypeError. */
  function Exceeds(x: Value, limit: real): Comparison
  {
    match x
    case Null => NotAbove
    case Bool(b) => if (if b then 1.0 else 0.0) > limit then Above else NotAbove
    case Num(n) => if n > limit then Above else NotAbove
    case _ => Raises
  }

  /** Whether the rule section runs to the alert write: neither comparison
      raises and at least one of them fires. */
  predicate AlertaDebida(datos: Document)
  {
    var t := Exceeds(GetOr(datos, TEMPERATURA_KEY, Null), TEMP_MAXIMA);
    var a := Exceeds(GetOr(datos, ACELEROMETRO_KEY, Null), ACELEROMETRO_MAXIMO);
    t != Raises && a != Raises && (t == Above || a == Above)
  }

  /** A JSON value the comparisons accept without raising. */
  predicate Comparable(v: Value)
  {
    v.Null? || v.Num?
  }

  /** On numeric (or absent) readings the rule is exactly: temperature
      strictly above 8.0 or Z acceleration strictly above 3.0. */
  lemma AlertaDebidaOnNumbers(datos: Document)
    requires TEMPERATURA_KEY in datos ==> Comparable(datos[TEMPERATURA_KEY])
    requires ACELEROMETRO_KEY in datos ==> Comparable(datos[ACELEROMETRO_KEY])
    ensures AlertaDebida(datos) <==>
      (TEMPERATURA_KEY in datos && datos[TEMPERATURA_KEY].Num? && datos[TEMPERATURA_KEY].n > 8.0) ||
      (ACELEROMETRO_KEY in datos && datos[ACELEROMETRO_KEY].Num? && datos[ACELEROMETRO_KEY].n > 3.0)
  {
  }

  /** The processed-timestamp key differs from the keys the rules read, so
      stamping the document does not change the rule outcome. */
  lemma StampKeepsRules(datos: Document, now: int)
    ensures AlertaDebida(datos[PROCESADO_KEY := Timestamp(now)]) == AlertaDebida(datos)
  {
    assert PROCESADO_KEY[1] != TEMPERATURA_KEY[1];
    assert PROCESADO_KEY[0] != ACELEROMETRO_KEY[0];
  }

  /** The simulators publish the Z acceleration under "acelerometro_ejeZ"
      (underscore); this handler reads "acelerometro-ejeZ" (hyphen), so such a
      reading can only raise an alert through its temperature. */
  lemma UnderscoreKeyIsIgnored(datos: Document, g: real)
    requires ACELEROMETRO_KEY !in datos
    requires TEMPERATURA_KEY in datos && datos[TEMPERATURA_KEY].Num? && datos[TEMPERATURA_KEY].n <= 8.0
    ensures !AlertaDebida(datos["acelerometro_ejeZ" := Num(g)])
  {
    var d := datos["acelerometro_ejeZ" := Num(g)];
    assert "acelerometro_ejeZ" != ACELEROMETRO_KEY by {
      assert "acelerometro_ejeZ"[12] != ACELEROMETRO_KEY[12];
    }
    assert "acelerometro_ejeZ" != TEMPERATURA_KEY by {
      assert "acelerometro_ejeZ"[0] != TEMPERATURA_KEY[0];
    }
    assert ACELEROMETRO_KEY !in d;
    assert d[TEMPERATURA_KEY] == datos[TEMPERATURA_KEY];
  }

  /** A temperature the comparison rejects (text, a list or an object) ends
      the rule section with a TypeError before the impact rule is even
      looked at, so no alert is written whatever the Z acceleration is. */
  lemma TemperaturaNoComparableDetieneAlerta(datos: Document)
    requires TEMPERATURA_KEY in datos && (datos[TEMPERATURA_KEY].Str? || datos[TEMPERATURA_KEY].Composite?)
    ensures !AlertaDebida(datos)
  {
  }

  /** A Z acceleration the comparison rejects raises after the temperature
      rule has fired, so even a temperature above 8.0 writes no alert. */
  lemma AceleracionNoComparableDetieneAlerta(datos: Document)
    requires ACELEROMETRO_KEY in datos && (datos[ACELEROMETRO_KEY].Str? || datos[ACELEROMETRO_KEY].Composite?)
    ensures !AlertaDebida(datos)
  {
  }

  /** JSON booleans compare as 0 and 1, below both limits: a boolean reading
      never fires a rule, and the other value alone decides. */
  lemma BooleanosNoDisparan(datos: Document, b: bool)
    ensures AlertaDebida(datos[TEMPERATURA_KEY := Bool(b)]) <==>
      ACELEROMETRO_KEY in datos && datos[ACELEROMETRO_KEY].Num? && datos[ACELEROMETRO_KEY].n > 3.0
    ensures !AlertaDebida(datos[TEMPERATURA_KEY := Bool(b)][ACELEROMETRO_KEY := Bool(b)])
  {
    assert TEMPERATURA_KEY != ACELEROMETRO_KEY by {
      assert TEMPERATURA_KEY[0] != ACELEROMETRO_KEY[0];
    }
  }

  /** The alert carries the reading's `ID_envio` as stored, so a present but
      null id reaches the alert as null; only an absent id becomes
      "ID_Desconocido". */
  lemma IdEnvioDelAlerta(datos: Document)
    ensures ID_KEY in datos && datos[ID_KEY].Null? ==> GetOr(datos, ID_KEY, Str(ID_DESCONOCIDO)) == Null
    ensures ID_KEY !in datos ==> GetOr(datos, ID_KEY, Str(ID_DESCONOCIDO)) == Str(ID_DESCONOCIDO)
  {
  }

  /** Whether the envelope fails the `not envelope or 'message' not in envelope` test. */
  predicate Malformed(request: Option<Envelope>)
  {
    request.None? || !request.value.truthy || !request.value.hasMessage
  }

  /** `procesar_alerta_y_guardar`. Status 500 when Firestore is down (nothing
      else happens); 400 for a malformed envelope; 200 "Error decodificando"
      when the body cannot be decoded (the message is acknowledged and
      dropped); 500 when storing the reading fails, so that Pub/Sub
      redelivers; otherwise 200 "Procesado", whatever happens in the rule
      section, which writes at most one alert document. */
  method ProcesarAlertaYGuardar(db: Firestore, request: Option<Envelope>, clock: Clock)
    returns (resp: Response, trace: seq<Effect>)
    ensures !db.connected ==> resp == ERROR_INTERNO && trace == []
    ensures db.connected && Malformed(request) ==> resp == PETICION_INVALIDA && trace == []
    ensures db.connected && !Malformed(request) && request.value.decoded.None? ==>
      resp == ERROR_DECODIFICANDO && trace == []
    ensures db.connected && !Malformed(request) && request.value.decoded.Some? ==>
      var datos := request.value.decoded.value;
      var stamped := datos[PROCESADO_KEY := Timestamp(clock.procesado)];
      && |trace| >= 1
      && trace[0] == AddReading(COLLECTION_NAME, stamped, db.addReadingOk)
      && (!db.addReadingOk ==> resp == ERROR_GUARDANDO && |trace| == 1)
      && (db.addReadingOk ==> resp == PROCESADO)
      && (|trace| == 2 <==> db.addReadingOk && AlertaDebida(datos))
      && (|trace| == 2 ==> trace[1] == AddAlert(
            ALERT_COLLECTION,
            AlertaData(GetOr(datos, ID_KEY, Str(ID_DESCONOCIDO)), stamped, clock.alerta, false),
            db.addAlertOk))
    ensures |trace| <= 2
    ensures resp.status == 500 <==> !db.connected || (!Malformed(request) && request.value.decoded.Some? && !db.addReadingOk)
  {
    trace := [];
    if !db.connected {
      return ERROR_INTERNO, [];
    }

    // 1. decode the Pub/Sub envelope
    if Malformed(request) {
      return PETICION_INVALIDA, [];
    }
    if request.value.decoded.None? {
      return ERROR_DECODIFICANDO, [];
    }
    var datos := request.value.decoded.value;
    var idEnvio := GetOr(datos, ID_KEY, Str(ID_DESCONOCIDO));

    // 2. always store the reading, stamped with the processing time
    datos := datos[PROCESADO_KEY := Timestamp(clock.procesado)];
    trace := [AddReading(COLLECTION_NAME, datos, db.addReadingOk)];
    if !db.addReadingOk {
      return ERROR_GUARDANDO, trace;
    }

    // 3. the rules; an exception ends the section and is swallowed
    StampKeepsRules(request.value.decoded.value, clock.procesado);
    var temperatura := GetOr(datos, TEMPERATURA_KEY, Null);
    var acelerometroZ := GetOr(datos, ACELEROMETRO_KEY, Null);
    var esAlerta := false;

    var t := Exceeds(temperatura, TEMP_MAXIMA);
    if t == Raises {
      return PROCESADO, trace;
    }
    if t == Above {
      esAlerta := true;
    }

    var a := Exceeds(acelerometroZ, ACELEROMETRO_MAXIMO);
    if a == Raises {
      return PROCESADO, trace;
    }
    if a == Above {
      esAlerta := true;
    }

    if esAlerta {
      var alerta := AlertaData(idEnvio, datos, clock.alerta, false);
      // a failed write is swallowed
      trace := trace + [AddAlert(ALERT_COLLECTION, alerta, db.addAlertOk)];
    }

    // 4. acknowledge
    resp := PROCESADO;
  }
}
