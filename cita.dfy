/**
 * The appointment entity (src/core/models/Cita.ts). Its business fields are
 * read-only; its one mutable field `estado` starts at Pendiente and is
 * overwritten by the four action methods WITHOUT consulting the current
 * state: every action succeeds from every state. Only the user interface,
 * which offers just the permitted actions, keeps the lifecycle in order;
 * that guarded use is stated separately below.
 */
module Modelos {
  import opened Wrappers
  import opened EstadoCita

  /** The state each action method of Cita assigns, whatever the state was. */
  function Destino(a: Accion): Estado
  {
    match a
    case Confirmar => Confirmada
    case Cancelar => Cancelada
    case Iniciar => EnProceso
    case Finalizar => Finalizada
  }

  class Cita {
    const id: string
    const cliente: string
    const servicio: string
    const fecha: string
    const hora: string
    const barbero: string
    const precio: real
    var estado: Estado

    constructor (id: string, cliente: string, servicio: string, fecha: string,
                 hora: string, barbero: string, precio: real)
      ensures this.id == id && this.cliente == cliente && this.servicio == servicio
      ensures this.fecha == fecha && this.hora == hora && this.barbero == barbero
      ensures this.precio == precio
      ensures estado == Pendiente
    {
      this.id := id;
      this.cliente := cliente;
      this.servicio := servicio;
      this.fecha := fecha;
      this.hora := hora;
      this.barbero := barbero;
      this.precio := precio;
      estado := Pendiente;
    }

    /** `confirmar`: always moves to Confirmada; the business fields are constants. */
    method Confirmar()
      modifies this
      ensures estado == Destino(Accion.Confirmar) == Confirmada
    {
      estado := Confirmada;
    }

    /** `cancelar`: always moves to Cancelada. */
    method Cancelar()
      modifies this
      ensures estado == Destino(Accion.Cancelar) == Cancelada
    {
      estado := Cancelada;
    }

    /** `iniciar`: always moves to En Proceso. */
    method Iniciar()
      modifies this
      ensures estado == Destino(Accion.Iniciar) == EnProceso
    {
      estado := EnProceso;
    }

    /** `finalizar`: always moves to Finalizada. */
    method Finalizar()
      modifies this
      ensures estado == Destino(Accion.Finalizar) == Finalizada
    {
      estado := Finalizada;
    }

    /** `getNombreEstado`: the current state's name. */
    function GetNombreEstado(): (r: string)
      reads this
      ensures r == GetNombre(estado)
    {
      GetNombre(estado)
    }

    /** `getColorEstado`: the current state's colour. */
    function GetColorEstado(): (r: string)
      reads this
      ensures r == GetColor(estado)
    {
      GetColor(estado)
    }

    /** `getAccionesPermitidas`: the actions the current state would not reject. */
    function GetAccionesPermitidas(): (r: seq<string>)
      reads this
      ensures r == EstadoCita.GetAccionesPermitidas(estado)
      ensures forall a :: NombreAccion(a) in r <==> Ejecutar(estado, a) == Pass
    {
      EstadoCita.GetAccionesPermitidas(estado)
    }
  }

  // ---------------------------------------------------------------------
  // Sequences of actions, with and without the interface's guard
  // ---------------------------------------------------------------------

  /** The state after calling the action methods in order, starting from `e`. */
  function Recorrido(e: Estado, acciones: seq<Accion>): Estado
    decreases |acciones|
  {
    if acciones == [] then e else Recorrido(Destino(acciones[0]), acciones[1..])
  }

  /** The action is listed by the state's `getAccionesPermitidas`. */
  predicate Permitida(e: Estado, a: Accion)
  {
    NombreAccion(a) in GetAccionesPermitidas(e)
  }

  /** Every action is issued only when the state it is issued in permits it. */
  predicate Guardado(e: Estado, acciones: seq<Accion>)
    decreases |acciones|
  {
    acciones == [] || (Permitida(e, acciones[0]) && Guardado(Destino(acciones[0]), acciones[1..]))
  }

  /** How far along the lifecycle a state is; both terminal states are last. */
  function Etapa(e: Estado): nat
  {
    match e
    case Pendiente => 0
    case Confirmada => 1
    case EnProceso => 2
    case Finalizada => 3
    case Cancelada => 3
  }

  /**
   * Without the guard the prior state is irrelevant: a non-empty sequence of
   * actions ends in the target of its last action.
   */
  lemma {:induction false} SinGuarda(e: Estado, acciones: seq<Accion>)
    requires acciones != []
    ensures Recorrido(e, acciones) == Destino(acciones[|acciones| - 1])
    decreases |acciones|
  {
    if |acciones| > 1 {
      SinGuarda(Destino(acciones[0]), acciones[1..]);
    }
  }

  /** Each action is idempotent: issuing it twice leaves the state of issuing it once. */
  lemma Idempotente(e: Estado, a: Accion)
    ensures Recorrido(e, [a, a]) == Recorrido(e, [a])
  {
  }

  /** Unguarded, a finished appointment can be confirmed again although its state rejects it. */
  lemma FinalizadaReabierta()
    ensures Ejecutar(Finalizada, Accion.Confirmar).Fail?
    ensures Recorrido(Finalizada, [Accion.Confirmar]) == Confirmada
  {
  }

  /**
   * One permitted step: Pendiente goes to Confirmada or Cancelada, Confirmada
   * to En Proceso or Cancelada, En Proceso only to Finalizada, and nothing is
   * permitted from a terminal state. Every permitted step moves forward.
   */
  lemma PasoPermitido(e: Estado, a: Accion)
    requires Permitida(e, a)
    ensures e == Pendiente ==> Destino(a) == Confirmada || Destino(a) == Cancelada
    ensures e == Confirmada ==> Destino(a) == EnProceso || Destino(a) == Cancelada
    ensures e == EnProceso ==> Destino(a) == Finalizada
    ensures !Terminal(e)
    ensures Etapa(Destino(a)) > Etapa(e)
  {
  }

  /** The guarded happy path: confirm, start and finish a pending appointment. */
  lemma CaminoFeliz()
    ensures Guardado(Pendiente, [Accion.Confirmar, Accion.Iniciar, Accion.Finalizar])
    ensures Recorrido(Pendiente, [Accion.Confirmar, Accion.Iniciar, Accion.Finalizar]) == Finalizada
  {
    var acciones := [Accion.Confirmar, Accion.Iniciar, Accion.Finalizar];
    assert acciones[1..] == [Accion.Iniciar, Accion.Finalizar];
    assert acciones[1..][1..] == [Accion.Finalizar];
  }

  /**
   * A guarded sequence of actions only moves forward, so it has at most three
   * actions, and from a terminal state it is empty.
   */
  lemma {:induction false} RecorridoGuardado(e: Estado, acciones: seq<Accion>)
    requires Guardado(e, acciones)
    ensures Etapa(Recorrido(e, acciones)) >= Etapa(e) + |acciones|
    ensures |acciones| <= 3 - Etapa(e)
    ensures Terminal(e) ==> acciones == []
    decreases |acciones|
  {
    if acciones != [] {
      PasoPermitido(e, acciones[0]);
      RecorridoGuardado(Destino(acciones[0]), acciones[1..]);
    }
  }
}
