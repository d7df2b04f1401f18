/** The pharmaceutical sensor simulator `GreenDeliveryPharmaIoTSensor`: it
    generates clamped readings, detects alerts with three rules (cold chain,
    impact, excessive humidity), shows the severe ones and a status line after
    a successful send, and runs a short demonstration that counts
    transmissions, successes and alerts.

    Random draws, the wall clock and the HTTP exchange are not performed here:
    the operations receive the drawn values, the timestamp text and the
    outcome of each send. */
module PharmaSensor {
  import opened Builtins

  /** One telemetry payload. */
  datatype Datos = Datos(
    idEnvio: string,
    timestamp: string,
    temperatura: real,
    humedad: real,
    latitud: real,
    longitud: real,
    acelerometroEjeZ: real,
    estadoSensor: string,
    bateria: real,
    tipoCarga: string,
    temperaturaObjetivo: string)

  datatype Tipo = CadenaFrioRota | ImpactoDetectado | HumedadExcesiva
  datatype Severidad = Critica | Alta | Media

  /** An alert: its kind, severity, the reading that triggered it and the
      fixed impact text. The description with the formatted reading is not
      modelled. */
  datatype Alerta = Alerta(tipo: Tipo, severidad: Severidad, valor: real, impacto: string)

  const IMPACTO_CADENA_FRIO := "Pérdida potencial de eficacia medicamentos"
  const IMPACTO_GOLPE := "Riesgo de rotura de viales/ampollas"
  const IMPACTO_HUMEDAD := "Posible degradación de principios activos"

  function AlertaCadenaFrio(d: Datos): Alerta { Alerta(CadenaFrioRota, Critica, d.temperatura, IMPACTO_CADENA_FRIO) }
  function AlertaImpacto(d: Datos): Alerta { Alerta(ImpactoDetectado, Alta, d.acelerometroEjeZ, IMPACTO_GOLPE) }
  function AlertaHumedad(d: Datos): Alerta { Alerta(HumedadExcesiva, Media, d.humedad, IMPACTO_HUMEDAD) }

  /** Position of each rule in the fixed evaluation order. */
  function Orden(t: Tipo): nat
  {
    match t
    case CadenaFrioRota => 0
    case ImpactoDetectado => 1
    case HumedadExcesiva => 2
  }

  /** How many rules a reading breaks, counted rule by rule. */
  function NumeroDeAlertas(d: Datos): nat
  {
    (if d.temperatura > 8.0 then 1 else 0)
    + (if d.acelerometroEjeZ > 3.0 then 1 else 0)
    + (if d.humedad > 90.0 then 1 else 0)
  }

  /** `detectar_alertas_farmaceuticas`: one alert per broken rule, checked in
      the order cold chain, impact, humidity. */
  function DetectarAlertasFarmaceuticas(datos: Datos): (alertas: seq<Alerta>)
    ensures |alertas| == NumeroDeAlertas(datos) <= 3
  {
    var temperatura := if datos.temperatura > 8.0 then [AlertaCadenaFrio(datos)] else [];
    var impacto := if datos.acelerometroEjeZ > 3.0 then [AlertaImpacto(datos)] else [];
    var humedad := if datos.humedad > 90.0 then [AlertaHumedad(datos)] else [];
    temperatura + impacto + humedad
  }

  /** The rules: temperature strictly above 8.0 (CRITICA), Z acceleration
      strictly above 3.0 (ALTA), humidity strictly above 90 (MEDIA), nothing
      else, strictly in that order. There is no low-humidity rule. */
  lemma ReglasFarmaceuticas(datos: Datos)
    ensures var alertas := DetectarAlertasFarmaceuticas(datos);
      && (AlertaCadenaFrio(datos) in alertas <==> datos.temperatura > 8.0)
      && (AlertaImpacto(datos) in alertas <==> datos.acelerometroEjeZ > 3.0)
      && (AlertaHumedad(datos) in alertas <==> datos.humedad > 90.0)
      && (forall a :: a in alertas ==>
            a == AlertaCadenaFrio(datos) || a == AlertaImpacto(datos) || a == AlertaHumedad(datos))
      && (forall i, j :: 0 <= i < j < |alertas| ==> Orden(alertas[i].tipo) < Orden(alertas[j].tipo))
  {
  }

  /** Humidity matters only above 90: however low it is, a humidity at or
      below 90 raises exactly the alerts any other such humidity raises. */
  lemma NoLowHumidityRule(datos: Datos, h: real)
    requires h <= 90.0 && datos.humedad <= 90.0
    ensures DetectarAlertasFarmaceuticas(datos.(humedad := h)) == DetectarAlertasFarmaceuticas(datos)
  {
  }

  // ---------------------------------------------------------------------
  // What is shown after a successful send
  // ---------------------------------------------------------------------

  /** The status icon of the temperature: red, blue or green. */
  datatype EstadoTemperatura = FueraDeRango | MuyFrio | Correcta

  /** The three-way temperature status: above 8.0 is out of range, below 2.0
      too cold, anything else (2.0 and 8.0 included) correct. */
  function ClasificarTemperatura(t: real): (e: EstadoTemperatura)
    ensures e == FueraDeRango <==> t > 8.0
    ensures e == MuyFrio <==> t < 2.0
    ensures e == Correcta <==> 2.0 <= t <= 8.0
  {
    if t > 8.0 then FueraDeRango
    else if t < 2.0 then MuyFrio
    else Correcta
  }

  /** The alerts printed after a send: the CRITICA and ALTA ones, in order. */
  function AlertasVisibles(alertas: seq<Alerta>): seq<Alerta>
  {
    if alertas == [] then []
    else
      var ultima := alertas[|alertas| - 1];
      AlertasVisibles(alertas[..|alertas| - 1]) + (if ultima.severidad != Media then [ultima] else [])
  }

  /** Showing one more alert appends it iff it is not MEDIA. */
  lemma AlertasVisiblesSnoc(alertas: seq<Alerta>, a: Alerta)
    ensures AlertasVisibles(alertas + [a]) == AlertasVisibles(alertas) + (if a.severidad != Media then [a] else [])
  {
    assert (alertas + [a])[..|alertas|] == alertas;
  }

  /** An alert is shown iff it was raised and is not MEDIA. */
  lemma {:induction false} AlertasVisiblesMembership(alertas: seq<Alerta>, a: Alerta)
    ensures a in AlertasVisibles(alertas) <==> a in alertas && a.severidad != Media
  {
    if alertas != [] {
      var init := alertas[..|alertas| - 1];
      AlertasVisiblesMembership(init, a);
      assert alertas == init + [alertas[|alertas| - 1]];
    }
  }

  /** With no MEDIA alert among them, every raised alert is shown, in order. */
  lemma {:induction false} AlertasVisiblesSinMedia(alertas: seq<Alerta>)
    requires forall i :: 0 <= i < |alertas| ==> alertas[i].severidad != Media
    ensures AlertasVisibles(alertas) == alertas
  {
    if alertas != [] {
      var init, ultima := alertas[..|alertas| - 1], alertas[|alertas| - 1];
      assert alertas == init + [ultima];
      AlertasVisiblesSinMedia(init);
      AlertasVisiblesSnoc(init, ultima);
    }
  }

  /** The loop of `enviar_datos` that prints each CRITICA or ALTA alert, in
      detection order, and skips the MEDIA ones. */
  method MostrarAlertas(alertas: seq<Alerta>) returns (mostradas: seq<Alerta>)
    ensures mostradas == AlertasVisibles(alertas)
  {
    mostradas := [];
    for i := 0 to |alertas|
      invariant mostradas == AlertasVisibles(alertas[..i])
    {
      assert alertas[..i + 1] == alertas[..i] + [alertas[i]];
      AlertasVisiblesSnoc(alertas[..i], alertas[i]);
      if alertas[i].severidad == Critica {
        mostradas := mostradas + [alertas[i]];
      } else if alertas[i].severidad == Alta {
        mostradas := mostradas + [alertas[i]];
      }
    }
    assert alertas[..|alertas|] == alertas;
  }

  /** The status line printed after a successful send, with the alerts shown before it. */
  datatype Vista = Vista(
    alertasMostradas: seq<Alerta>,
    estadoTemperatura: EstadoTemperatura,
    impacto: bool,
    bateriaSuficiente: bool)

  /** How the POST to the endpoint ended. */
  datatype Respuesta = Http(status: int) | Timeout | ErrorConexion | ErrorInesperado

  // ---------------------------------------------------------------------
  // Generation
  // ---------------------------------------------------------------------

  /** The temperature of a generated reading, `max(0, base + variation)`. */
  function TemperaturaGenerada(temperaturaBase: real, variacion: real): (t: real)
    ensures t >= 0.0
    ensures temperaturaBase + variacion >= 0.0 ==> t == temperaturaBase + variacion
    ensures temperaturaBase + variacion < 0.0 ==> t == 0.0
  {
    Max(0.0, temperaturaBase + variacion)
  }

  /** The humidity of a generated reading, `max(30, min(95, base + variation))`. */
  function HumedadGenerada(humedadBase: real, variacion: real): (h: real)
    ensures 30.0 <= h <= 95.0
    ensures 30.0 <= humedadBase + variacion <= 95.0 ==> h == humedadBase + variacion
    ensures humedadBase + variacion < 30.0 ==> h == 30.0
    ensures humedadBase + variacion > 95.0 ==> h == 95.0
  {
    Max(30.0, Min(95.0, humedadBase + variacion))
  }

  /** The random values one reading draws: the temperature variation, whether
      the cold chain breaks (15% chance) and by how much, the humidity
      variation, the two GPS steps, the base acceleration, whether a strong
      impact happens (8% chance) and its extra G, and the battery level. */
  datatype Muestra = Muestra(
    variacionTemp: real,
    rupturaCadena: bool,
    excesoRuptura: real,
    variacionHumedad: real,
    pasoLatitud: real,
    pasoLongitud: real,
    aceleracionBase: real,
    golpe: bool,
    excesoGolpe: real,
    bateria: real)

  /** The measured part of a reading generated from `m`. */
  predicate MedicionDe(d: Datos, temperaturaBase: real, humedadBase: real, m: Muestra)
  {
    && d.temperatura == TemperaturaGenerada(temperaturaBase, m.variacionTemp + (if m.rupturaCadena then m.excesoRuptura else 0.0))
    && d.humedad == HumedadGenerada(humedadBase, m.variacionHumedad)
    && d.acelerometroEjeZ == m.aceleracionBase + (if m.golpe then m.excesoGolpe else 0.0)
    && d.bateria == m.bateria
  }

  /** `d` is the reading generated in step `c`: its timestamp and its measured part. */
  predicate LecturaDe(d: Datos, temperaturaBase: real, humedadBase: real, c: Ciclo)
  {
    d.timestamp == c.ahora && MedicionDe(d, temperaturaBase, humedadBase, c.muestra)
  }

  /** Each reading of a run is the one generated in the step at the same
      position. */
  ghost predicate LecturasDe(lecturas: seq<Datos>, temperaturaBase: real, humedadBase: real, ciclos: seq<Ciclo>)
    decreases |lecturas|
  {
    && |lecturas| == |ciclos|
    && (lecturas != [] ==>
          && LecturaDe(lecturas[|lecturas| - 1], temperaturaBase, humedadBase, ciclos[|ciclos| - 1])
          && LecturasDe(lecturas[..|lecturas| - 1], temperaturaBase, humedadBase, ciclos[..|ciclos| - 1]))
  }

  /** The reading generated in step k extends the readings of the steps before it. */
  lemma LecturasDeSnoc(lecturas: seq<Datos>, tBase: real, hBase: real, ciclos: seq<Ciclo>, k: nat, d: Datos)
    requires k < |ciclos|
    requires LecturasDe(lecturas, tBase, hBase, ciclos[..k]) && LecturaDe(d, tBase, hBase, ciclos[k])
    ensures LecturasDe(lecturas + [d], tBase, hBase, ciclos[..k + 1])
  {
    assert (lecturas + [d])[..|lecturas|] == lecturas;
    assert ciclos[..k + 1][..k] == ciclos[..k];
  }

  /** Read position by position: reading i comes from step i. */
  lemma {:induction false} LecturasDeEnCadaPaso(lecturas: seq<Datos>, tBase: real, hBase: real, ciclos: seq<Ciclo>)
    requires LecturasDe(lecturas, tBase, hBase, ciclos)
    ensures |lecturas| == |ciclos|
    ensures forall i :: 0 <= i < |ciclos| ==> LecturaDe(lecturas[i], tBase, hBase, ciclos[i])
  {
    if lecturas != [] {
      var n := |lecturas| - 1;
      LecturasDeEnCadaPaso(lecturas[..n], tBase, hBase, ciclos[..n]);
      forall i | 0 <= i < |ciclos|
        ensures LecturaDe(lecturas[i], tBase, hBase, ciclos[i])
      {
        if i < n {
          assert lecturas[..n][i] == lecturas[i] && ciclos[..n][i] == ciclos[i];
        }
      }
    }
  }

  /** The random values drawn at start-up. */
  datatype Arranque = Arranque(
    idAleatorio: string,
    desvioLatitud: real,
    desvioLongitud: real,
    temperaturaBase: real,
    humedadBase: real,
    velocidadMovimiento: real)

  /** The default endpoint, kept as written (its scheme reads "hhttps"). */
  const ENDPOINT_POR_DEFECTO := "hhttps://greendelivery-pharma-gateway-587952111457.europe-west1.run.app"
  const LATITUD_MADRID: real := 40.4168
  const LONGITUD_MADRID: real := -3.7038

  /** One step of the demonstration loop. */
  datatype Ciclo = Ciclo(muestra: Muestra, ahora: string, respuesta: Respuesta)

  /** How far a run moves the sensor north: the drawn latitude steps, summed. */
  function DesplazamientoLatitud(ciclos: seq<Ciclo>): real
  {
    if ciclos == [] then 0.0
    else DesplazamientoLatitud(ciclos[..|ciclos| - 1]) + ciclos[|ciclos| - 1].muestra.pasoLatitud
  }

  /** How far a run moves the sensor east: the drawn longitude steps, summed. */
  function DesplazamientoLongitud(ciclos: seq<Ciclo>): real
  {
    if ciclos == [] then 0.0
    else DesplazamientoLongitud(ciclos[..|ciclos| - 1]) + ciclos[|ciclos| - 1].muestra.pasoLongitud
  }

  /** One more step adds its own success and its own GPS steps to the run's totals. */
  lemma UnPasoMas(ciclos: seq<Ciclo>, k: nat)
    requires k < |ciclos|
    ensures Exitosos(ciclos[..k + 1]) == Exitosos(ciclos[..k]) + (if ciclos[k].respuesta == Http(200) then 1 else 0)
    ensures DesplazamientoLatitud(ciclos[..k + 1]) == DesplazamientoLatitud(ciclos[..k]) + ciclos[k].muestra.pasoLatitud
    ensures DesplazamientoLongitud(ciclos[..k + 1]) == DesplazamientoLongitud(ciclos[..k]) + ciclos[k].muestra.pasoLongitud
  {
    assert ciclos[..k + 1][..k] == ciclos[..k];
  }

  /** Number of sends in a run answered with HTTP 200. */
  function Exitosos(ciclos: seq<Ciclo>): nat
  {
    if ciclos == [] then 0
    else Exitosos(ciclos[..|ciclos| - 1]) + (if ciclos[|ciclos| - 1].respuesta == Http(200) then 1 else 0)
  }

  /** Successes never outnumber attempts. */
  lemma {:induction false} ExitososAtMost(ciclos: seq<Ciclo>)
    ensures Exitosos(ciclos) <= |ciclos|
  {
    if ciclos != [] {
      ExitososAtMost(ciclos[..|ciclos| - 1]);
    }
  }

  /** Alerts raised by a run of readings, summed. */
  function TotalAlertas(lecturas: seq<Datos>): nat
  {
    if lecturas == [] then 0
    else TotalAlertas(lecturas[..|lecturas| - 1]) + NumeroDeAlertas(lecturas[|lecturas| - 1])
  }

  /** One more reading adds its own alerts to the total. */
  lemma TotalAlertasSnoc(lecturas: seq<Datos>, d: Datos)
    ensures TotalAlertas(lecturas + [d]) == TotalAlertas(lecturas) + NumeroDeAlertas(d)
  {
    assert (lecturas + [d])[..|lecturas|] == lecturas;
  }

  /** A run of n readings raises at most 3n alerts. */
  lemma {:induction false} TotalAlertasBound(lecturas: seq<Datos>)
    ensures TotalAlertas(lecturas) <= 3 * |lecturas|
  {
    if lecturas != [] {
      TotalAlertasBound(lecturas[..|lecturas| - 1]);
    }
  }

  class GreenDeliveryPharmaIoTSensor {
    var envioId: string
    var endpointUrl: string
    var latitud: real
    var longitud: real
    var temperaturaBase: real
    var humedadBase: real
    var velocidadMovimiento: real

    /** `__init__`: an empty id or URL falls back to the default; without a
        starting position the sensor starts near Madrid. */
    constructor (envioId: Option<string>, endpointUrl: Option<string>, ubicacionInicio: Option<(real, real)>, azar: Arranque)
      ensures this.envioId == if envioId.Some? && envioId.value != "" then envioId.value else "GD-MEDS-" + azar.idAleatorio
      ensures this.endpointUrl == if endpointUrl.Some? && endpointUrl.value != "" then endpointUrl.value else ENDPOINT_POR_DEFECTO
      ensures ubicacionInicio.Some? ==> latitud == ubicacionInicio.value.0 && longitud == ubicacionInicio.value.1
      ensures ubicacionInicio.None? ==>
        latitud == LATITUD_MADRID + azar.desvioLatitud && longitud == LONGITUD_MADRID + azar.desvioLongitud
      ensures temperaturaBase == azar.temperaturaBase && humedadBase == azar.humedadBase
      ensures velocidadMovimiento == azar.velocidadMovimiento
    {
      this.envioId := if envioId.Some? && envioId.value != "" then envioId.value else "GD-MEDS-" + azar.idAleatorio;
      this.endpointUrl := if endpointUrl.Some? && endpointUrl.value != "" then endpointUrl.value else ENDPOINT_POR_DEFECTO;
      if ubicacionInicio.Some? {
        latitud, longitud := ubicacionInicio.value.0, ubicacionInicio.value.1;
      } else {
        latitud := LATITUD_MADRID + azar.desvioLatitud;
        longitud := LONGITUD_MADRID + azar.desvioLongitud;
      }
      temperaturaBase := azar.temperaturaBase;
      humedadBase := azar.humedadBase;
      velocidadMovimiento := azar.velocidadMovimiento;
    }

    /** `generar_datos_sensor`: moves the sensor by the drawn GPS steps and
        builds a reading whose temperature is clamped to at least 0 and whose
        humidity is clamped to [30, 95]. */
    method GenerarDatosSensor(m: Muestra, ahora: string) returns (datos: Datos)
      modifies this`latitud, this`longitud
      ensures latitud == old(latitud) + m.pasoLatitud && longitud == old(longitud) + m.pasoLongitud
      ensures datos.idEnvio == envioId && datos.timestamp == ahora
      ensures MedicionDe(datos, temperaturaBase, humedadBase, m)
      ensures datos.temperatura >= 0.0 && 30.0 <= datos.humedad <= 95.0
      ensures datos.latitud == latitud && datos.longitud == longitud
      ensures datos.estadoSensor == "ACTIVO" && datos.tipoCarga == "MEDICAMENTOS" && datos.temperaturaObjetivo == "2-8°C"
    {
      var variacionTemp := m.variacionTemp;
      if m.rupturaCadena {
        variacionTemp := variacionTemp + m.excesoRuptura;
      }
      var temperatura := TemperaturaGenerada(temperaturaBase, variacionTemp);
      var humedad := HumedadGenerada(humedadBase, m.variacionHumedad);
      latitud := latitud + m.pasoLatitud;
      longitud := longitud + m.pasoLongitud;
      var aceleracion := m.aceleracionBase;
      if m.golpe {
        aceleracion := aceleracion + m.excesoGolpe;
      }
      datos := Datos(envioId, ahora, temperatura, humedad, latitud, longitud, aceleracion,
                     "ACTIVO", m.bateria, "MEDICAMENTOS", "2-8°C");
    }

    /** `enviar_datos`: the send succeeds iff the endpoint answers 200; only
        then are the CRITICA and ALTA alerts shown, MEDIA ones skipped, and the
        status line built: temperature status, impact flag iff the Z
        acceleration exceeds 3.0, battery flag iff the level exceeds 20. */
    method EnviarDatos(datos: Datos, respuesta: Respuesta) returns (exito: bool, vista: Option<Vista>)
      ensures exito <==> respuesta == Http(200)
      ensures vista.Some? <==> exito
      ensures vista.Some? ==>
        && vista.value.alertasMostradas == AlertasVisibles(DetectarAlertasFarmaceuticas(datos))
        && vista.value.estadoTemperatura == ClasificarTemperatura(datos.temperatura)
        && (vista.value.impacto <==> datos.acelerometroEjeZ > 3.0)
        && (vista.value.bateriaSuficiente <==> datos.bateria > 20.0)
    {
      if respuesta != Http(200) {
        return false, None;
      }
      var mostradas := MostrarAlertas(DetectarAlertasFarmaceuticas(datos));

      var estado := if datos.temperatura > 8.0 then FueraDeRango
                    else if datos.temperatura < 2.0 then MuyFrio
                    else Correcta;
      var impacto := datos.acelerometroEjeZ > 3.0;
      var bateria := datos.bateria > 20.0;
      return true, Some(Vista(mostradas, estado, impacto, bateria));
    }

    /** `demo_rapida`, for the steps that ran before the duration ran out:
        each step generates a reading, counts its alerts, sends it and counts
        the success. */
    method DemoRapida(ciclos: seq<Ciclo>)
      returns (contador: nat, exitosos: nat, alertasGeneradas: nat, ghost lecturas: seq<Datos>)
      modifies this`latitud, this`longitud
      ensures contador == |ciclos|
      ensures latitud == old(latitud) + DesplazamientoLatitud(ciclos)
      ensures longitud == old(longitud) + DesplazamientoLongitud(ciclos)
      ensures exitosos == Exitosos(ciclos) && exitosos <= contador
      ensures |lecturas| == |ciclos|
      ensures forall i :: 0 <= i < |ciclos| ==> LecturaDe(lecturas[i], temperaturaBase, humedadBase, ciclos[i])
      ensures alertasGeneradas == TotalAlertas(lecturas)
    {
      contador, exitosos, alertasGeneradas := 0, 0, 0;
      lecturas := [];
      ghost var tBase, hBase := temperaturaBase, humedadBase;
      while contador < |ciclos|
        invariant contador <= |ciclos|
        invariant |lecturas| == contador
        invariant LecturasDe(lecturas, tBase, hBase, ciclos[..contador])
        invariant exitosos == Exitosos(ciclos[..contador])
        invariant latitud == old(latitud) + DesplazamientoLatitud(ciclos[..contador])
        invariant longitud == old(longitud) + DesplazamientoLongitud(ciclos[..contador])
        invariant alertasGeneradas == TotalAlertas(lecturas)
      {
        var c := ciclos[contador];
        var datos := GenerarDatosSensor(c.muestra, c.ahora);
        var alertas := DetectarAlertasFarmaceuticas(datos);
        alertasGeneradas := alertasGeneradas + |alertas|;
        // the run so far, one step longer
        UnPasoMas(ciclos, contador);
        TotalAlertasSnoc(lecturas, datos);
        LecturasDeSnoc(lecturas, tBase, hBase, ciclos, contador, datos);
        lecturas := lecturas + [datos];

        var enviado, _ := EnviarDatos(datos, c.respuesta);
        if enviado {
          exitosos := exitosos + 1;
        }
        contador := contador + 1;
      }
      assert ciclos[..contador] == ciclos;
      LecturasDeEnCadaPaso(lecturas, tBase, hBase, ciclos);
      ExitososAtMost(ciclos);
    }
  }
}
