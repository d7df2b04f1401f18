/** The fruit-shipment sensor simulator `GreenDeliveryIoTSensor`: it
    generates readings, detects anomalies with three rules (temperature,
    impact, low humidity) and keeps transmission statistics.

    Random draws, the wall clock and the HTTP send are not performed here: the
    operations receive the drawn values, the timestamp text and whether the
    send succeeded. */
module FruitSensor {
  import opened Builtins

  /** One telemetry payload. */
  datatype Datos = Datos(
    idEnvio: string,
    timestamp: string,
    temperatura: real,
    humedad: real,
    latitud: real,
    longitud: real,
    acelerometroEjeZ: real,
    estadoSensor: string,
    bateria: real)

  datatype Tipo = TemperaturaAlta | ImpactoDetectado | HumedadBaja
  datatype Severidad = Critica | Alta | Media

  /** An alert; its message text with the formatted reading is not modelled. */
  datatype Alerta = Alerta(tipo: Tipo, severidad: Severidad, timestamp: string)

  /** Position of each rule in the fixed evaluation order. */
  function Orden(t: Tipo): nat
  {
    match t
    case TemperaturaAlta => 0
    case ImpactoDetectado => 1
    case HumedadBaja => 2
  }

  /** How many rules a reading breaks, counted rule by rule. */
  function NumeroDeAnomalias(d: Datos): nat
  {
    (if d.temperatura > 8.0 then 1 else 0)
    + (if d.acelerometroEjeZ > 3.0 then 1 else 0)
    + (if d.humedad < 50.0 then 1 else 0)
  }

  /** `detectar_anomalias`: one alert per broken rule, checked in the order
      temperature, impact, humidity. */
  function DetectarAnomalias(datos: Datos): (alertas: seq<Alerta>)
    ensures |alertas| == NumeroDeAnomalias(datos) <= 3
  {
    var temperatura := if datos.temperatura > 8.0 then [Alerta(TemperaturaAlta, Critica, datos.timestamp)] else [];
    var impacto := if datos.acelerometroEjeZ > 3.0 then [Alerta(ImpactoDetectado, Alta, datos.timestamp)] else [];
    var humedad := if datos.humedad < 50.0 then [Alerta(HumedadBaja, Media, datos.timestamp)] else [];
    temperatura + impacto + humedad
  }

  /** The rules: temperature strictly above 8.0 (CRITICA), Z acceleration
      strictly above 3.0 (ALTA), humidity strictly below 50 (MEDIA), nothing
      else, strictly in that order, each stamped with the reading's timestamp. */
  lemma ReglasAnomalias(datos: Datos)
    ensures var alertas := DetectarAnomalias(datos);
      && (Alerta(TemperaturaAlta, Critica, datos.timestamp) in alertas <==> datos.temperatura > 8.0)
      && (Alerta(ImpactoDetectado, Alta, datos.timestamp) in alertas <==> datos.acelerometroEjeZ > 3.0)
      && (Alerta(HumedadBaja, Media, datos.timestamp) in alertas <==> datos.humedad < 50.0)
      && (forall a :: a in alertas ==>
            a == Alerta(TemperaturaAlta, Critica, datos.timestamp) ||
            a == Alerta(ImpactoDetectado, Alta, datos.timestamp) ||
            a == Alerta(HumedadBaja, Media, datos.timestamp))
      && (forall i, j :: 0 <= i < j < |alertas| ==> Orden(alertas[i].tipo) < Orden(alertas[j].tipo))
  {
  }

  /** Alerts raised by a run of readings, summed. */
  function TotalAlertas(lecturas: seq<Datos>): nat
  {
    if lecturas == [] then 0
    else TotalAlertas(lecturas[..|lecturas| - 1]) + NumeroDeAnomalias(lecturas[|lecturas| - 1])
  }

  /** One more reading adds its own alerts to the total. */
  lemma TotalAlertasSnoc(lecturas: seq<Datos>, d: Datos)
    ensures TotalAlertas(lecturas + [d]) == TotalAlertas(lecturas) + NumeroDeAnomalias(d)
  {
    assert (lecturas + [d])[..|lecturas|] == lecturas;
  }

  /** A run of n readings raises at most 3n alerts. */
  lemma {:induction false} TotalAlertasBound(lecturas: seq<Datos>)
    ensures TotalAlertas(lecturas) <= 3 * |lecturas|
  {
    if lecturas != [] {
      TotalAlertasBound(lecturas[..|lecturas| - 1]);
    }
  }

  /** The humidity of a generated reading, `max(0, min(100, base + variation))`. */
  function HumedadGenerada(humedadBase: real, variacion: real): (h: real)
    ensures 0.0 <= h <= 100.0
    ensures 0.0 <= humedadBase + variacion <= 100.0 ==> h == humedadBase + variacion
    ensures humedadBase + variacion < 0.0 ==> h == 0.0
    ensures humedadBase + variacion > 100.0 ==> h == 100.0
  {
    Max(0.0, Min(100.0, humedadBase + variacion))
  }

  /** The random values one reading draws: the temperature variation, whether
      refrigeration fails (3% chance) and by how much it then warms up, the
      humidity variation, the two GPS steps, the Z acceleration and the
      battery level. */
  datatype Muestra = Muestra(
    variacionTemp: real,
    falloRefrigeracion: bool,
    excesoFallo: real,
    variacionHumedad: real,
    pasoLatitud: real,
    pasoLongitud: real,
    acelerometroZ: real,
    bateria: real)

  /** The measured part of a reading generated from `m`. */
  predicate MedicionDe(d: Datos, temperaturaBase: real, humedadBase: real, m: Muestra)
  {
    && d.temperatura == temperaturaBase + m.variacionTemp + (if m.falloRefrigeracion then m.excesoFallo else 0.0)
    && d.humedad == HumedadGenerada(humedadBase, m.variacionHumedad)
    && d.acelerometroEjeZ == m.acelerometroZ
    && d.bateria == m.bateria
  }

  /** The random values drawn at start-up. */
  datatype Arranque = Arranque(
    idAleatorio: string,
    desvioLatitud: real,
    desvioLongitud: real,
    temperaturaBase: real,
    humedadBase: real,
    velocidadMovimiento: real)

  const ENDPOINT_POR_DEFECTO := "https://webhook.site/ddcd421e-bf7c-490a-9b49-613d06c7ed5c"
  const LATITUD_MADRID: real := 40.4168
  const LONGITUD_MADRID: real := -3.7038

  /** One step of the monitoring loop: what is drawn, when, and whether the send succeeds. */
  datatype Ciclo = Ciclo(muestra: Muestra, ahora: string, exito: bool)

  /** How far a run moves the sensor north: the drawn latitude steps, summed. */
  function DesplazamientoLatitud(ciclos: seq<Ciclo>): real
  {
    if ciclos == [] then 0.0
    else DesplazamientoLatitud(ciclos[..|ciclos| - 1]) + ciclos[|ciclos| - 1].muestra.pasoLatitud
  }

  /** How far a run moves the sensor east: the drawn longitude steps, summed. */
  function DesplazamientoLongitud(ciclos: seq<Ciclo>): real
  {
    if ciclos == [] then 0.0
    else DesplazamientoLongitud(ciclos[..|ciclos| - 1]) + ciclos[|ciclos| - 1].muestra.pasoLongitud
  }

  /** One more step adds its own success and its own GPS steps to the run's totals. */
  lemma UnPasoMas(ciclos: seq<Ciclo>, k: nat)
    requires k < |ciclos|
    ensures Exitos(ciclos[..k + 1]) == Exitos(ciclos[..k]) + (if ciclos[k].exito then 1 else 0)
    ensures DesplazamientoLatitud(ciclos[..k + 1]) == DesplazamientoLatitud(ciclos[..k]) + ciclos[k].muestra.pasoLatitud
    ensures DesplazamientoLongitud(ciclos[..k + 1]) == DesplazamientoLongitud(ciclos[..k]) + ciclos[k].muestra.pasoLongitud
  {
    assert ciclos[..k + 1][..k] == ciclos[..k];
  }

  /** `d` is the reading generated in step `c`: its timestamp and its measured part. */
  predicate LecturaDe(d: Datos, temperaturaBase: real, humedadBase: real, c: Ciclo)
  {
    d.timestamp == c.ahora && MedicionDe(d, temperaturaBase, humedadBase, c.muestra)
  }

  /** Each reading of a run is the one generated in the step at the same
      position. */
  ghost predicate LecturasDe(lecturas: seq<Datos>, temperaturaBase: real, humedadBase: real, ciclos: seq<Ciclo>)
    decreases |lecturas|
  {
    && |lecturas| == |ciclos|
    && (lecturas != [] ==>
          && LecturaDe(lecturas[|lecturas| - 1], temperaturaBase, humedadBase, ciclos[|ciclos| - 1])
          && LecturasDe(lecturas[..|lecturas| - 1], temperaturaBase, humedadBase, ciclos[..|ciclos| - 1]))
  }

  /** The reading generated in step k extends the readings of the steps before it. */
  lemma LecturasDeSnoc(lecturas: seq<Datos>, tBase: real, hBase: real, ciclos: seq<Ciclo>, k: nat, d: Datos)
    requires k < |ciclos|
    requires LecturasDe(lecturas, tBase, hBase, ciclos[..k]) && LecturaDe(d, tBase, hBase, ciclos[k])
    ensures LecturasDe(lecturas + [d], tBase, hBase, ciclos[..k + 1])
  {
    assert (lecturas + [d])[..|lecturas|] == lecturas;
    assert ciclos[..k + 1][..k] == ciclos[..k];
  }

  /** Read position by position: reading i comes from step i. */
  lemma {:induction false} LecturasDeEnCadaPaso(lecturas: seq<Datos>, tBase: real, hBase: real, ciclos: seq<Ciclo>)
    requires LecturasDe(lecturas, tBase, hBase, ciclos)
    ensures |lecturas| == |ciclos|
    ensures forall i :: 0 <= i < |ciclos| ==> LecturaDe(lecturas[i], tBase, hBase, ciclos[i])
  {
    if lecturas != [] {
      var n := |lecturas| - 1;
      LecturasDeEnCadaPaso(lecturas[..n], tBase, hBase, ciclos[..n]);
      forall i | 0 <= i < |ciclos|
        ensures LecturaDe(lecturas[i], tBase, hBase, ciclos[i])
      {
        if i < n {
          assert lecturas[..n][i] == lecturas[i] && ciclos[..n][i] == ciclos[i];
        }
      }
    }
  }

  /** Number of successful sends in a run. */
  function Exitos(ciclos: seq<Ciclo>): nat
  {
    if ciclos == [] then 0
    else Exitos(ciclos[..|ciclos| - 1]) + (if ciclos[|ciclos| - 1].exito then 1 else 0)
  }

  class GreenDeliveryIoTSensor {
    var envioId: string
    var endpointUrl: string
    var latitud: real
    var longitud: real
    var temperaturaBase: real
    var humedadBase: real
    var velocidadMovimiento: real
    var totalEnvios: nat
    var enviosExitosos: nat
    var alertasGeneradas: nat

    /** Successful sends never outnumber attempted ones. */
    ghost predicate Valid()
      reads this
    {
      enviosExitosos <= totalEnvios
    }

    /** `__init__`: an empty id or URL falls back to the default; without a
        starting position the sensor starts near Madrid; all statistics are 0. */
    constructor (envioId: Option<string>, endpointUrl: Option<string>, ubicacionInicio: Option<(real, real)>, azar: Arranque)
      ensures Valid()
      ensures this.envioId == if envioId.Some? && envioId.value != "" then envioId.value else "GD-" + azar.idAleatorio
      ensures this.endpointUrl == if endpointUrl.Some? && endpointUrl.value != "" then endpointUrl.value else ENDPOINT_POR_DEFECTO
      ensures ubicacionInicio.Some? ==> latitud == ubicacionInicio.value.0 && longitud == ubicacionInicio.value.1
      ensures ubicacionInicio.None? ==>
        latitud == LATITUD_MADRID + azar.desvioLatitud && longitud == LONGITUD_MADRID + azar.desvioLongitud
      ensures temperaturaBase == azar.temperaturaBase && humedadBase == azar.humedadBase
      ensures velocidadMovimiento == azar.velocidadMovimiento
      ensures totalEnvios == 0 && enviosExitosos == 0 && alertasGeneradas == 0
    {
      this.envioId := if envioId.Some? && envioId.value != "" then envioId.value else "GD-" + azar.idAleatorio;
      this.endpointUrl := if endpointUrl.Some? && endpointUrl.value != "" then endpointUrl.value else ENDPOINT_POR_DEFECTO;
      if ubicacionInicio.Some? {
        latitud, longitud := ubicacionInicio.value.0, ubicacionInicio.value.1;
      } else {
        latitud := LATITUD_MADRID + azar.desvioLatitud;
        longitud := LONGITUD_MADRID + azar.desvioLongitud;
      }
      temperaturaBase := azar.temperaturaBase;
      humedadBase := azar.humedadBase;
      velocidadMovimiento := azar.velocidadMovimiento;
      totalEnvios := 0;
      enviosExitosos := 0;
      alertasGeneradas := 0;
    }

    /** `generar_datos_telemetria`: moves the sensor by the drawn GPS steps
        and builds a reading whose humidity is clamped to [0, 100]. */
    method GenerarDatosTelemetria(m: Muestra, ahora: string) returns (datos: Datos)
      modifies this`latitud, this`longitud
      ensures latitud == old(latitud) + m.pasoLatitud && longitud == old(longitud) + m.pasoLongitud
      ensures datos.idEnvio == envioId && datos.timestamp == ahora
      ensures MedicionDe(datos, temperaturaBase, humedadBase, m)
      ensures 0.0 <= datos.humedad <= 100.0
      ensures datos.latitud == latitud && datos.longitud == longitud
      ensures datos.estadoSensor == "ACTIVO"
    {
      var variacionTemp := m.variacionTemp;
      if m.falloRefrigeracion {
        variacionTemp := variacionTemp + m.excesoFallo;
      }
      var temperatura := temperaturaBase + variacionTemp;
      var humedad := HumedadGenerada(humedadBase, m.variacionHumedad);
      latitud := latitud + m.pasoLatitud;
      longitud := longitud + m.pasoLongitud;
      datos := Datos(envioId, ahora, temperatura, humedad, latitud, longitud, m.acelerometroZ, "ACTIVO", m.bateria);
    }

    /** `enviar_datos`: counts the attempt, counts it as successful iff the
        send succeeded, and counts every alert the reading raises whether or
        not the send succeeded. */
    method EnviarDatos(datos: Datos, exito: bool) returns (r: bool)
      requires Valid()
      modifies this`totalEnvios, this`enviosExitosos, this`alertasGeneradas
      ensures Valid()
      ensures r == exito
      ensures totalEnvios == old(totalEnvios) + 1
      ensures enviosExitosos == old(enviosExitosos) + (if exito then 1 else 0)
      ensures alertasGeneradas == old(alertasGeneradas) + NumeroDeAnomalias(datos)
    {
      totalEnvios := totalEnvios + 1;
      if exito {
        enviosExitosos := enviosExitosos + 1;
      }
      var alertas := DetectarAnomalias(datos);
      for i := 0 to |alertas|
        invariant alertasGeneradas == old(alertasGeneradas) + i
        modifies this`alertasGeneradas
      {
        alertasGeneradas := alertasGeneradas + 1;
      }
      r := exito;
    }

    /** `iniciar_monitoreo`, for the steps that ran before the duration ran
        out: each step generates a reading and sends it. */
    method IniciarMonitoreo(ciclos: seq<Ciclo>) returns (ghost lecturas: seq<Datos>)
      requires Valid()
      modifies this`latitud, this`longitud, this`totalEnvios, this`enviosExitosos, this`alertasGeneradas
      ensures Valid()
      ensures envioId == old(envioId) && temperaturaBase == old(temperaturaBase) && humedadBase == old(humedadBase)
      ensures |lecturas| == |ciclos|
      ensures forall i :: 0 <= i < |ciclos| ==> LecturaDe(lecturas[i], temperaturaBase, humedadBase, ciclos[i])
      ensures latitud == old(latitud) + DesplazamientoLatitud(ciclos)
      ensures longitud == old(longitud) + DesplazamientoLongitud(ciclos)
      ensures totalEnvios == old(totalEnvios) + |ciclos|
      ensures enviosExitosos == old(enviosExitosos) + Exitos(ciclos)
      ensures alertasGeneradas == old(alertasGeneradas) + TotalAlertas(lecturas)
    {
      lecturas := [];
      for k := 0 to |ciclos|
        invariant Valid()
        invariant |lecturas| == k
        invariant LecturasDe(lecturas, temperaturaBase, humedadBase, ciclos[..k])
        invariant latitud == old(latitud) + DesplazamientoLatitud(ciclos[..k])
        invariant longitud == old(longitud) + DesplazamientoLongitud(ciclos[..k])
        invariant totalEnvios == old(totalEnvios) + k
        invariant enviosExitosos == old(enviosExitosos) + Exitos(ciclos[..k])
        invariant alertasGeneradas == old(alertasGeneradas) + TotalAlertas(lecturas)
      {
        var datos := GenerarDatosTelemetria(ciclos[k].muestra, ciclos[k].ahora);
        // the run so far, one step longer
        UnPasoMas(ciclos, k);
        TotalAlertasSnoc(lecturas, datos);
        LecturasDeSnoc(lecturas, temperaturaBase, humedadBase, ciclos, k, datos);
        lecturas := lecturas + [datos];

        var _ := EnviarDatos(datos, ciclos[k].exito);
      }
      assert ciclos[..|ciclos|] == ciclos;
      LecturasDeEnCadaPaso(lecturas, temperaturaBase, humedadBase, ciclos);
    }
  }
}
