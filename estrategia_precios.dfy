/**
 * Pricing strategies (src/core/EstrategiaPrecios.ts): five fixed price
 * adjustments, the calculator object that holds the current one, and the
 * factory that picks one from the weekday and the booking context.
 *
 * Prices are exact reals: the source multiplies without rounding, and the
 * factors 0.9, 1.2, 0.85 and 0.95 are taken as the decimal values they denote.
 */
module EstrategiaPrecios {
  import opened Wrappers

  /** The five strategy classes of the source, one constructor each. */
  datatype Estrategia =
    | Normal            // PrecioNormal
    | Miercoles         // PrecioMiercoles
    | BarberoExperto    // PrecioBarberoExperto
    | ClienteFrecuente  // PrecioClienteFrecuente
    | PrimeraVez        // PrecioPrimeraVez

  /** The barber whose appointments carry the expert surcharge. */
  const BarberoExpertoNombre: string := "Carlos Rodríguez"

  /** The weekday number of Wednesday in `Date.getDay()` (0 = Sunday). */
  const DiaMiercoles: int := 3

  /**
   * The fields of the untyped `contexto` object that the factory reads.
   * An absent `barbero` is None; an absent flag is false.
   */
  datatype Contexto = Contexto(barbero: Option<string>, clienteFrecuente: bool, primeravez: bool)

  /** The `{}` default of the source's `contexto` parameter. */
  const ContextoVacio: Contexto := Contexto(None, false, false)

  /** The multiplier each strategy applies, in thousandths. */
  function PorMil(e: Estrategia): nat
  {
    match e
    case Normal => 1000
    case Miercoles => 900
    case BarberoExperto => 1200
    case ClienteFrecuente => 850
    case PrimeraVez => 950
  }

  /** True for the three strategies that lower the price. */
  predicate EsDescuento(e: Estrategia)
  {
    e == Miercoles || e == ClienteFrecuente || e == PrimeraVez
  }

  /** `calcularPrecio`: the base price times the strategy's factor. */
  function CalcularPrecio(e: Estrategia, precioBase: real): (r: real)
    ensures r == precioBase * (PorMil(e) as real) / 1000.0
    ensures e == Normal ==> r == precioBase
  {
    match e
    case Normal => precioBase
    case Miercoles => precioBase * 0.9
    case BarberoExperto => precioBase * 1.2
    case ClienteFrecuente => precioBase * 0.85
    case PrimeraVez => precioBase * 0.95
  }

  /**
   * `getDescripcion`: the label each strategy shows. The sign in the label
   * matches the direction of the adjustment.
   */
  function Descripcion(e: Estrategia): (r: string)
    ensures '-' in r <==> EsDescuento(e)
    ensures '+' in r <==> e == BarberoExperto
  {
    match e
    case Normal => "Precio estándar"
    case Miercoles => "Descuento miércoles (-10%)"
    case BarberoExperto => "Barbero experto (+20%)"
    case ClienteFrecuente => "Cliente frecuente (-15%)"
    case PrimeraVez => "Primera visita (-5%)"
  }

  /** The five labels are pairwise distinct, so the label identifies the strategy. */
  lemma DescripcionInyectiva(e1: Estrategia, e2: Estrategia)
    requires Descripcion(e1) == Descripcion(e2)
    ensures e1 == e2
  {
  }

  /** Discounts never raise a non-negative price; the surcharge never lowers it. */
  lemma Acotado(e: Estrategia, precioBase: real)
    requires precioBase >= 0.0
    ensures EsDescuento(e) ==> CalcularPrecio(e, precioBase) <= precioBase
    ensures !EsDescuento(e) ==> CalcularPrecio(e, precioBase) >= precioBase
  {
  }

  /** Every strategy is monotone in the base price. */
  lemma Monotona(e: Estrategia, b1: real, b2: real)
    requires b1 <= b2
    ensures CalcularPrecio(e, b1) <= CalcularPrecio(e, b2)
  {
  }

  /**
   * On a positive base the price strictly drops exactly under a discount,
   * strictly rises exactly under the surcharge and is kept only by Normal.
   */
  lemma SentidoDelAjuste(e: Estrategia, precioBase: real)
    requires precioBase > 0.0
    ensures CalcularPrecio(e, precioBase) < precioBase <==> EsDescuento(e)
    ensures CalcularPrecio(e, precioBase) > precioBase <==> e == BarberoExperto
    ensures CalcularPrecio(e, precioBase) == precioBase <==> e == Normal
  {
  }

  /**
   * A base price that is a multiple of 1000 gives a whole adjusted price,
   * so the missing rounding in the source never shows for composed services.
   */
  lemma PrecioEnteroSobreMiles(e: Estrategia, k: int)
    ensures CalcularPrecio(e, (1000 * k) as real) == (k * PorMil(e)) as real
  {
  }

  // ---------------------------------------------------------------------
  // CalculadoraPrecio: the strategy holder, whose strategy may be replaced.
  // ---------------------------------------------------------------------

  class CalculadoraPrecio {
    var estrategia: Estrategia

    constructor (estrategia: Estrategia)
      ensures this.estrategia == estrategia
    {
      this.estrategia := estrategia;
    }

    /** `setEstrategia`: later results come from `e`. */
    method SetEstrategia(e: Estrategia)
      modifies this
      ensures estrategia == e
    {
      estrategia := e;
    }

    /** `calcularPrecioFinal`: what the current strategy computes. */
    function CalcularPrecioFinal(precioBase: real): (r: real)
      reads this
      ensures r == precioBase * (PorMil(estrategia) as real) / 1000.0
    {
      CalcularPrecio(estrategia, precioBase)
    }

    /** `getDescripcionEstrategia`: the current strategy's label. */
    function GetDescripcionEstrategia(): (r: string)
      reads this
      ensures r == Descripcion(estrategia)
    {
      Descripcion(estrategia)
    }
  }

  // ---------------------------------------------------------------------
  // EstrategiaPrecioFactory.crearEstrategia
  // ---------------------------------------------------------------------

  /** The condition under which the factory may pick `e`. */
  predicate Aplica(e: Estrategia, hoy: int, ctx: Contexto)
  {
    match e
    case Miercoles => hoy == DiaMiercoles
    case BarberoExperto => ctx.barbero == Some(BarberoExpertoNombre)
    case ClienteFrecuente => ctx.clienteFrecuente
    case PrimeraVez => ctx.primeravez
    case Normal => true
  }

  /** The factory's precedence: a smaller rank is tested earlier. */
  function Rango(e: Estrategia): nat
  {
    match e
    case Miercoles => 0
    case BarberoExperto => 1
    case ClienteFrecuente => 2
    case PrimeraVez => 3
    case Normal => 4
  }

  /**
   * `crearEstrategia(tipo, contexto)` with the clock's weekday passed in as
   * `hoy`: the applicable strategy of highest precedence. `tipo` is unused.
   */
  function CrearEstrategia(tipo: string, hoy: int, ctx: Contexto): (r: Estrategia)
    ensures Aplica(r, hoy, ctx)
    ensures forall e :: Aplica(e, hoy, ctx) ==> Rango(r) <= Rango(e)
  {
    if hoy == DiaMiercoles then Miercoles
    else if ctx.barbero == Some(BarberoExpertoNombre) then BarberoExperto
    else if ctx.clienteFrecuente then ClienteFrecuente
    else if ctx.primeravez then PrimeraVez
    else Normal
  }

  /** Precedence determines the choice: at most one applicable strategy has each rank. */
  lemma CrearEstrategiaUnica(tipo: string, hoy: int, ctx: Contexto, e: Estrategia)
    requires Aplica(e, hoy, ctx)
    requires forall e' :: Aplica(e', hoy, ctx) ==> Rango(e) <= Rango(e')
    ensures CrearEstrategia(tipo, hoy, ctx) == e
  {
  }

  /** The `tipo` argument has no effect on the choice. */
  lemma TipoIgnorado(t1: string, t2: string, hoy: int, ctx: Contexto)
    ensures CrearEstrategia(t1, hoy, ctx) == CrearEstrategia(t2, hoy, ctx)
  {
  }

  /** Wednesday wins over every personal attribute, the expert over loyalty discounts. */
  lemma PrecedenciaEjemplos(tipo: string, hoy: int, ctx: Contexto)
    ensures hoy == DiaMiercoles ==> CrearEstrategia(tipo, hoy, ctx) == Miercoles
    ensures hoy != DiaMiercoles && ctx.barbero == Some(BarberoExpertoNombre)
            ==> CrearEstrategia(tipo, hoy, ctx) == BarberoExperto
    ensures hoy != DiaMiercoles && ctx == ContextoVacio ==> CrearEstrategia(tipo, hoy, ctx) == Normal
  {
  }
}
