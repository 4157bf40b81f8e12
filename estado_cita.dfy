/**
 * Appointment states (src/core/EstadoCita.ts): five field-less state classes.
 * Each says, for the four lifecycle actions, whether its method returns
 * normally or throws (and with which message), and lists the actions it permits.
 * The permitted methods do nothing: the state change itself is made by Cita.
 */
module EstadoCita {
  import opened Wrappers

  /** EstadoPendiente, EstadoConfirmada, EstadoEnProceso, EstadoFinalizada, EstadoCancelada. */
  datatype Estado = Pendiente | Confirmada | EnProceso | Finalizada | Cancelada

  /** The four methods every state has: confirmar, cancelar, iniciar, finalizar. */
  datatype Accion = Confirmar | Cancelar | Iniciar | Finalizar

  /** The name under which an action appears in `getAccionesPermitidas`. */
  function NombreAccion(a: Accion): string
  {
    match a
    case Confirmar => "confirmar"
    case Cancelar => "cancelar"
    case Iniciar => "iniciar"
    case Finalizar => "finalizar"
  }

  /** The state is one of the two that no action leaves. */
  predicate Terminal(e: Estado)
  {
    e == Finalizada || e == Cancelada
  }

  /**
   * Calling state `e`'s method for action `a`: Pass if it returns, Fail(message)
   * if it throws. `confirmar` passes exactly from Pendiente, `iniciar` from Confirmada,
   * `finalizar` from En Proceso, `cancelar` from Pendiente or Confirmada. A
   * terminal state rejects everything, a finished one with a single message.
   */
  function Ejecutar(e: Estado, a: Accion): (r: Outcome<string>)
    ensures Terminal(e) ==> r.Fail?
    ensures r.Fail? ==> |r.error| > 0
    ensures e == Finalizada ==> r == Fail("La cita ya finalizó")
    ensures a == Accion.Confirmar ==> (r.Pass? <==> e == Pendiente)
    ensures a == Accion.Iniciar ==> (r.Pass? <==> e == Confirmada)
    ensures a == Accion.Finalizar ==> (r.Pass? <==> e == EnProceso)
    ensures a == Accion.Cancelar ==> (r.Pass? <==> e == Pendiente || e == Confirmada)
  {
    match (e, a)
    case (Pendiente, Confirmar) => Pass
    case (Pendiente, Cancelar) => Pass
    case (Pendiente, Iniciar) => Fail("No se puede iniciar una cita pendiente")
    case (Pendiente, Finalizar) => Fail("No se puede finalizar una cita pendiente")
    case (Confirmada, Confirmar) => Fail("La cita ya está confirmada")
    case (Confirmada, Cancelar) => Pass
    case (Confirmada, Iniciar) => Pass
    case (Confirmada, Finalizar) => Fail("No se puede finalizar sin iniciar")
    case (EnProceso, Confirmar) => Fail("La cita ya está en proceso")
    case (EnProceso, Cancelar) => Fail("No se puede cancelar una cita en proceso")
    case (EnProceso, Iniciar) => Fail("La cita ya está en proceso")
    case (EnProceso, Finalizar) => Pass
    case (Finalizada, _) => Fail("La cita ya finalizó")
    case (Cancelada, Cancelar) => Fail("La cita ya está cancelada")
    case (Cancelada, _) => Fail("La cita está cancelada")
  }

  /** `getNombre`: a capitalised display name. */
  function GetNombre(e: Estado): (r: string)
    ensures |r| > 0 && 'A' <= r[0] <= 'Z'
  {
    match e
    case Pendiente => "Pendiente"
    case Confirmada => "Confirmada"
    case EnProceso => "En Proceso"
    case Finalizada => "Finalizada"
    case Cancelada => "Cancelada"
  }

  /** `getColor`: a background colour class of shade 500. */
  function GetColor(e: Estado): (r: string)
    ensures |r| > 7 && r[..3] == "bg-" && r[|r| - 4..] == "-500"
  {
    match e
    case Pendiente => "bg-yellow-500"
    case Confirmada => "bg-green-500"
    case EnProceso => "bg-blue-500"
    case Finalizada => "bg-gray-500"
    case Cancelada => "bg-red-500"
  }

  /**
   * `getAccionesPermitidas`: exactly the names of the actions whose method
   * does not throw in this state, each once, and nothing but action names.
   */
  function GetAccionesPermitidas(e: Estado): (r: seq<string>)
    ensures forall a :: NombreAccion(a) in r <==> Ejecutar(e, a) == Pass
    ensures forall i :: 0 <= i < |r| ==> exists a :: r[i] == NombreAccion(a)
    ensures forall i, j :: 0 <= i < j < |r| ==> r[i] != r[j]
    ensures r == [] <==> Terminal(e)
  {
    match e
    case Pendiente => [NombreAccion(Confirmar), NombreAccion(Cancelar)]
    case Confirmada => [NombreAccion(Iniciar), NombreAccion(Cancelar)]
    case EnProceso => [NombreAccion(Finalizar)]
    case Finalizada => []
    case Cancelada => []
  }

  /** The five state names are pairwise distinct. */
  lemma NombresDistintos(e1: Estado, e2: Estado)
    requires GetNombre(e1) == GetNombre(e2)
    ensures e1 == e2
  {
  }

  /** The five colours are pairwise distinct, so the colour identifies the state. */
  lemma ColoresDistintos(e1: Estado, e2: Estado)
    requires GetColor(e1) == GetColor(e2)
    ensures e1 == e2
  {
  }

  /** In a terminal state every action throws. */
  lemma TerminalRechazaTodo(e: Estado, a: Accion)
    requires Terminal(e)
    ensures Ejecutar(e, a).Fail?
  {
  }
}
