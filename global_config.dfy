/**
 * Process-wide configuration (src/core/GlobalConfig.ts): opening and closing
 * hours, the cancellation policy text and a Wednesday discount fraction,
 * mutable through setters; the opening-hours check; and the booking
 * validation that runs its checks in a fixed order and stops at the first
 * failure.
 *
 * Hours are "HH:MM" strings compared as JavaScript compares strings,
 * lexicographically. The date is parsed by the host's `Date`, which this
 * model does not contain: the validation takes the parse result as an input.
 */
module Configuracion {
  import opened Wrappers

  // ---------------------------------------------------------------------
  // Lexicographic order on strings (JavaScript's `<=` on strings)
  // ---------------------------------------------------------------------

  /** `a <= b` on strings: the first difference decides, a proper prefix is smaller. */
  predicate LexLe(a: string, b: string)
    ensures a <= b ==> LexLe(a, b)
    ensures LexLe(a, b) && b <= a ==> a == b
    decreases |a|
  {
    a == [] || (b != [] && (a[0] < b[0] || (a[0] == b[0] && LexLe(a[1..], b[1..]))))
  }

  lemma {:induction false} LexLeReflexiva(a: string)
    ensures LexLe(a, a)
    decreases |a|
  {
    if a != [] {
      LexLeReflexiva(a[1..]);
    }
  }

  lemma {:induction false} LexLeAntisimetrica(a: string, b: string)
    requires LexLe(a, b) && LexLe(b, a)
    ensures a == b
    decreases |a|
  {
    if a != [] {
      LexLeAntisimetrica(a[1..], b[1..]);
      assert a == [a[0]] + a[1..] && b == [b[0]] + b[1..];
    }
  }

  lemma {:induction false} LexLeTransitiva(a: string, b: string, c: string)
    requires LexLe(a, b) && LexLe(b, c)
    ensures LexLe(a, c)
    decreases |a|
  {
    if a != [] && a[0] == b[0] && b[0] == c[0] {
      LexLeTransitiva(a[1..], b[1..], c[1..]);
    }
  }

  lemma {:induction false} LexLeTotal(a: string, b: string)
    ensures LexLe(a, b) || LexLe(b, a)
    decreases |a|
  {
    if a != [] && b != [] && a[0] == b[0] {
      LexLeTotal(a[1..], b[1..]);
    }
  }

  // ---------------------------------------------------------------------
  // Well-formed "HH:MM" hours: string order is chronological order
  // ---------------------------------------------------------------------

  predicate EsDigito(c: char)
  {
    '0' <= c <= '9'
  }

  function Digito(c: char): nat
    requires EsDigito(c)
  {
    (c as int - '0' as int) as nat
  }

  /** Two-digit hours, a colon, and minutes from 00 to 59. */
  predicate HoraBienFormada(h: string)
  {
    && |h| == 5
    && EsDigito(h[0]) && EsDigito(h[1])
    && h[2] == ':'
    && '0' <= h[3] <= '5' && EsDigito(h[4])
  }

  /** Minutes since midnight of a well-formed hour. */
  function Minutos(h: string): nat
    requires HoraBienFormada(h)
  {
    (Digito(h[0]) * 10 + Digito(h[1])) * 60 + Digito(h[3]) * 10 + Digito(h[4])
  }

  /** LexLe on five characters, written out position by position. */
  lemma LexLeCinco(a: string, b: string)
    requires |a| == 5 && |b| == 5 && a[2] == b[2]
    ensures LexLe(a, b) <==>
      a[0] < b[0] || (a[0] == b[0] && (a[1] < b[1] || (a[1] == b[1] &&
      (a[3] < b[3] || (a[3] == b[3] && a[4] <= b[4])))))
  {
    assert a[4..][1..] == [] && b[4..][1..] == [];
    assert LexLe(a[4..], b[4..]) <==> a[4] <= b[4];
    assert a[3..][1..] == a[4..] && b[3..][1..] == b[4..];
    assert LexLe(a[3..], b[3..]) <==> a[3] < b[3] || (a[3] == b[3] && LexLe(a[4..], b[4..]));
    assert a[2..][1..] == a[3..] && b[2..][1..] == b[3..];
    assert LexLe(a[2..], b[2..]) <==> LexLe(a[3..], b[3..]);
    assert a[1..][1..] == a[2..] && b[1..][1..] == b[2..];
    assert LexLe(a[1..], b[1..]) <==> a[1] < b[1] || (a[1] == b[1] && LexLe(a[2..], b[2..]));
  }

  /**
   * For well-formed hours the string comparison the source uses agrees with
   * comparing the times of day.
   */
  lemma HoraLexicaEsCronologica(a: string, b: string)
    requires HoraBienFormada(a) && HoraBienFormada(b)
    ensures LexLe(a, b) <==> Minutos(a) <= Minutos(b)
  {
    LexLeCinco(a, b);
  }

  // ---------------------------------------------------------------------
  // Validation results and messages
  // ---------------------------------------------------------------------

  /** The `{ valido, error? }` object `validarCita` returns. */
  datatype Validacion = Validacion(valido: bool, error: Option<string>)

  const ErrorSinFecha: string := "❌ Por favor selecciona una fecha"
  const ErrorSinHora: string := "❌ Por favor selecciona una hora"
  const ErrorFechaInvalida: string := "❌ Fecha inválida"
  const ErrorDomingo: string := "❌ No atendemos los domingos"

  /** The out-of-hours message, built from the hours configured at the time of the call. */
  function ErrorHorario(apertura: string, cierre: string): string
  {
    "❌ La cita debe estar entre " + apertura + " y " + cierre
  }

  const PrefijoPolitica: string := "Puedes cancelar hasta "
  const SufijoPolitica: string := " de tu cita sin penalización"

  /** The message of the first check that fails, in list order; None when all pass. */
  function PrimerFallo(comprobaciones: seq<(bool, string)>): (r: Option<string>)
    ensures r.None? <==> forall i :: 0 <= i < |comprobaciones| ==> comprobaciones[i].0
    ensures r.Some? ==> exists i :: 0 <= i < |comprobaciones| && !comprobaciones[i].0
                          && r.value == comprobaciones[i].1
                          && forall j :: 0 <= j < i ==> comprobaciones[j].0
  {
    if comprobaciones == [] then None
    else if !comprobaciones[0].0 then Some(comprobaciones[0].1)
    else
      var r := PrimerFallo(comprobaciones[1..]);
      assert forall i :: 1 <= i < |comprobaciones| ==> comprobaciones[i] == comprobaciones[1..][i - 1];
      if r.Some? then
        var k :| 0 <= k < |comprobaciones[1..]| && !comprobaciones[1..][k].0
                 && r.value == comprobaciones[1..][k].1
                 && forall j :: 0 <= j < k ==> comprobaciones[1..][j].0;
        assert !comprobaciones[k + 1].0 && r.value == comprobaciones[k + 1].1;
        r
      else r
  }

  // ---------------------------------------------------------------------
  // GlobalConfig
  // ---------------------------------------------------------------------

  class GlobalConfig {
    var horarioApertura: string
    var horarioCierre: string
    var politicaCancelacion: string
    var descuentoMiercoles: real

    /** The field initialisers of the source. */
    predicate Inicial()
      reads this
    {
      && horarioApertura == "09:00"
      && horarioCierre == "20:00"
      && politicaCancelacion == "2 horas antes"
      && descuentoMiercoles == 0.1
    }

    /** The private constructor: every field at its initial value. */
    constructor ()
      ensures Inicial()
    {
      horarioApertura := "09:00";
      horarioCierre := "20:00";
      politicaCancelacion := "2 horas antes";
      descuentoMiercoles := 0.1;
    }

    /** `getPoliticaCancelacion`: the policy text, recoverable between a fixed prefix and suffix. */
    function GetPoliticaCancelacion(): (r: string)
      reads this
      ensures |r| == |PrefijoPolitica| + |politicaCancelacion| + |SufijoPolitica|
      ensures r[..|PrefijoPolitica|] == PrefijoPolitica
      ensures r[|PrefijoPolitica|..|PrefijoPolitica| + |politicaCancelacion|] == politicaCancelacion
      ensures r[|PrefijoPolitica| + |politicaCancelacion|..] == SufijoPolitica
    {
      PrefijoPolitica + politicaCancelacion + SufijoPolitica
    }

    /**
     * `esHorarioValido`: the hour lies between opening and closing, both
     * inclusive, in string order; with opening after closing no hour does.
     */
    function EsHorarioValido(hora: string): (r: bool)
      reads this
      ensures r <==> LexLe(horarioApertura, hora) && LexLe(hora, horarioCierre)
      ensures r ==> LexLe(horarioApertura, horarioCierre)
    {
      if LexLe(horarioApertura, hora) && LexLe(hora, horarioCierre) then
        LexLeTransitiva(horarioApertura, hora, horarioCierre);
        true
      else
        false
    }

    /** The checks of `validarCita`, in the order the source runs them. */
    function Comprobaciones(fecha: string, hora: string, fechaLeida: Option<int>): seq<(bool, string)>
      reads this
    {
      [ (fecha != "", ErrorSinFecha),
        (hora != "", ErrorSinHora),
        (EsHorarioValido(hora), ErrorHorario(horarioApertura, horarioCierre)),
        (fechaLeida.Some?, ErrorFechaInvalida),
        (fechaLeida != Some(0), ErrorDomingo) ]
    }

    /**
     * `validarCita(fecha, hora)`. `fechaLeida` is what `new Date(fecha)` gives
     * on the host: None when its time is NaN, otherwise Some of its `getDay()`
     * (0 = Sunday). The error is that of the first failing check, and the
     * booking is valid exactly when there is none.
     */
    function ValidarCita(fecha: string, hora: string, fechaLeida: Option<int>): (r: Validacion)
      reads this
      ensures r.valido <==> r.error.None?
      ensures r.valido <==> fecha != "" && hora != "" && EsHorarioValido(hora)
                            && fechaLeida.Some? && fechaLeida.value != 0
      ensures fecha == "" ==> r.error == Some(ErrorSinFecha)
      ensures fecha != "" && !EsHorarioValido(hora) && hora != ""
              ==> r.error == Some(ErrorHorario(horarioApertura, horarioCierre))
    {
      if fecha == "" then Validacion(false, Some(ErrorSinFecha))
      else if hora == "" then Validacion(false, Some(ErrorSinHora))
      else if !EsHorarioValido(hora) then
        Validacion(false, Some(ErrorHorario(horarioApertura, horarioCierre)))
      else if fechaLeida.None? then Validacion(false, Some(ErrorFechaInvalida))
      else if fechaLeida.value == 0 then Validacion(false, Some(ErrorDomingo))
      else Validacion(true, None)
    }

    /** `setHorarioApertura`: only the opening hour changes. */
    method SetHorarioApertura(hora: string)
      modifies this
      ensures horarioApertura == hora
      ensures horarioCierre == old(horarioCierre) && politicaCancelacion == old(politicaCancelacion)
      ensures descuentoMiercoles == old(descuentoMiercoles)
    {
      horarioApertura := hora;
    }

    /** `setHorarioCierre`: only the closing hour changes. */
    method SetHorarioCierre(hora: string)
      modifies this
      ensures horarioCierre == hora
      ensures horarioApertura == old(horarioApertura) && politicaCancelacion == old(politicaCancelacion)
      ensures descuentoMiercoles == old(descuentoMiercoles)
    {
      horarioCierre := hora;
    }

    /** `setPoliticaCancelacion`: only the policy text changes. */
    method SetPoliticaCancelacion(politica: string)
      modifies this
      ensures politicaCancelacion == politica
      ensures horarioApertura == old(horarioApertura) && horarioCierre == old(horarioCierre)
      ensures descuentoMiercoles == old(descuentoMiercoles)
    {
      politicaCancelacion := politica;
    }

    /** `setDescuentoMiercoles`: only the discount fraction changes; no strategy reads it. */
    method SetDescuentoMiercoles(descuento: real)
      modifies this
      ensures descuentoMiercoles == descuento
      ensures horarioApertura == old(horarioApertura) && horarioCierre == old(horarioCierre)
      ensures politicaCancelacion == old(politicaCancelacion)
    {
      descuentoMiercoles := descuento;
    }
  }

  /**
   * The holder of the source's static `instance` field: the process's one
   * configuration, created on first request.
   */
  class Proceso {
    var instancia: GlobalConfig?

    constructor ()
      ensures instancia == null
    {
      instancia := null;
    }

    /** `getInstance`: the existing configuration, or a fresh one in its initial state. */
    method GetInstance() returns (c: GlobalConfig)
      modifies this
      ensures old(instancia) != null ==> c == old(instancia)
      ensures old(instancia) == null ==> fresh(c) && c.Inicial()
      ensures instancia == c
    {
      if instancia == null {
        instancia := new GlobalConfig();
      }
      c := instancia;
    }
  }

  /** `validarCita` reports the first failing check of its list, in order. */
  lemma ValidarCitaEsPrimerFallo(config: GlobalConfig, fecha: string, hora: string, fechaLeida: Option<int>)
    ensures config.ValidarCita(fecha, hora, fechaLeida).error
            == PrimerFallo(config.Comprobaciones(fecha, hora, fechaLeida))
  {
    var cs := config.Comprobaciones(fecha, hora, fechaLeida);
    assert PrimerFallo(cs[4..]) == (if cs[4].0 then None else Some(cs[4].1)) by {
      assert cs[4..][1..] == [];
    }
    assert cs[3..][1..] == cs[4..];
    assert PrimerFallo(cs[3..]) == if cs[3].0 then PrimerFallo(cs[4..]) else Some(cs[3].1);
    assert cs[2..][1..] == cs[3..];
    assert PrimerFallo(cs[2..]) == if cs[2].0 then PrimerFallo(cs[3..]) else Some(cs[2].1);
    assert cs[1..][1..] == cs[2..];
    assert PrimerFallo(cs[1..]) == if cs[1].0 then PrimerFallo(cs[2..]) else Some(cs[1].1);
    assert PrimerFallo(cs) == if cs[0].0 then PrimerFallo(cs[1..]) else Some(cs[0].1);
  }

  /** With opening after closing, no hour passes the check. */
  lemma HorarioInvertidoVacio(config: GlobalConfig, hora: string)
    requires !LexLe(config.horarioApertura, config.horarioCierre)
    ensures !config.EsHorarioValido(hora)
  {
  }

  /** With the initial hours, "21:00" is rejected with the message naming those hours. */
  lemma EjemploFueraDeHorario(config: GlobalConfig, fecha: string, fechaLeida: Option<int>)
    requires config.Inicial()
    requires fecha != ""
    ensures config.ValidarCita(fecha, "21:00", fechaLeida).error
            == Some("❌ La cita debe estar entre 09:00 y 20:00")
  {
    var h := "21:00";
    assert HoraBienFormada(h) && HoraBienFormada(config.horarioCierre);
    HoraLexicaEsCronologica(h, config.horarioCierre);
    assert !config.EsHorarioValido(h);
    assert ErrorHorario("09:00", "20:00") == "❌ La cita debe estar entre 09:00 y 20:00";
  }

  /** A Sunday within opening hours is rejected with the Sunday message. */
  lemma EjemploDomingo(config: GlobalConfig, fecha: string, hora: string)
    requires fecha != "" && hora != "" && config.EsHorarioValido(hora)
    ensures config.ValidarCita(fecha, hora, Some(0)).error == Some(ErrorDomingo)
  {
  }
}
