/**
 * Barber services (src/core/ServicioBarberia.ts): six fixed base services,
 * four add-on decorators that each wrap an inner service, the factory that
 * builds both from string keys, and the priced service that applies a
 * pricing strategy chosen once at construction.
 *
 * The class hierarchy becomes one recursive datatype: `Base` is a base
 * service, `Extra(x, inner)` is decorator `x` wrapped around `inner`.
 */
module ServicioBarberia {
  import opened Wrappers
  import opened EstrategiaPrecios

  /** CorteBasico, ArregloBarba, TratamientoCapilar, ExperienciaPremium, PackNovio, Coloracion. */
  datatype TipoBase = Corte | Barba | Tratamiento | Premium | Novio | Coloracion

  /** ExtraBarba, ExtraMascarilla, ExtraLavado, ExtraMasaje. */
  datatype TipoExtra = ExtraBarba | ExtraMascarilla | ExtraLavado | ExtraMasaje

  const ErrorTipoInvalido: string := "Tipo de servicio no válido"

  // ---------------------------------------------------------------------
  // The fixed tables of the base services and of the add-ons
  // ---------------------------------------------------------------------

  function DescripcionBase(t: TipoBase): string
  {
    match t
    case Corte => "Corte de Cabello"
    case Barba => "Arreglo de Barba"
    case Tratamiento => "Tratamiento Capilar"
    case Premium => "Experiencia Premium"
    case Novio => "Pack Novio"
    case Coloracion => "Coloración"
  }

  function PrecioBase(t: TipoBase): nat
  {
    match t
    case Corte => 22000
    case Barba => 10000
    case Tratamiento => 25000
    case Premium => 30000
    case Novio => 90000
    case Coloracion => 40000
  }

  /** Duration in minutes. */
  function DuracionBase(t: TipoBase): nat
  {
    match t
    case Corte => 30
    case Barba => 20
    case Tratamiento => 45
    case Premium => 60
    case Novio => 90
    case Coloracion => 75
  }

  /** The text an add-on appends to the inner description. */
  function Sufijo(x: TipoExtra): string
  {
    match x
    case ExtraBarba => " + Arreglo de Barba"
    case ExtraMascarilla => " + Mascarilla Facial"
    case ExtraLavado => " + Lavado Premium"
    case ExtraMasaje => " + Masaje Capilar"
  }

  function IncrementoPrecio(x: TipoExtra): nat
  {
    match x
    case ExtraBarba => 10000
    case ExtraMascarilla => 15000
    case ExtraLavado => 8000
    case ExtraMasaje => 12000
  }

  /** Extra minutes. */
  function IncrementoDuracion(x: TipoExtra): nat
  {
    match x
    case ExtraBarba => 20
    case ExtraMascarilla => 15
    case ExtraLavado => 10
    case ExtraMasaje => 15
  }

  /** Proof helper for `GetPrecio`: the sum of two multiples of 1000 is one. */
  lemma MultiplosDeMil(a: nat, b: nat)
    requires a % 1000 == 0 && b % 1000 == 0
    ensures (a + b) % 1000 == 0
  {
  }

  // ---------------------------------------------------------------------
  // Composed services
  // ---------------------------------------------------------------------

  datatype Servicio = Base(tipo: TipoBase) | Extra(extra: TipoExtra, servicio: Servicio)
  {
    /** The base service at the bottom of the decorator chain. */
    function Raiz(): TipoBase
    {
      match this
      case Base(t) => t
      case Extra(_, s) => s.Raiz()
    }

    /** `getDescripcion`: starts with the base service's description. */
    function GetDescripcion(): (r: string)
      ensures |DescripcionBase(Raiz())| <= |r|
      ensures r[..|DescripcionBase(Raiz())|] == DescripcionBase(Raiz())
    {
      match this
      case Base(t) => DescripcionBase(t)
      case Extra(x, s) => s.GetDescripcion() + Sufijo(x)
    }

    /** `getPrecio`: a positive multiple of 1000, at least the base service's price. */
    function GetPrecio(): (r: nat)
      ensures r >= PrecioBase(Raiz()) > 0
      ensures r % 1000 == 0
    {
      match this
      case Base(t) => PrecioBase(t)
      case Extra(x, s) =>
        MultiplosDeMil(s.GetPrecio(), IncrementoPrecio(x));
        s.GetPrecio() + IncrementoPrecio(x)
    }

    /** `getDuracion`: positive, at least the base service's duration. */
    function GetDuracion(): (r: nat)
      ensures r >= DuracionBase(Raiz()) > 0
    {
      match this
      case Base(t) => DuracionBase(t)
      case Extra(x, s) => s.GetDuracion() + IncrementoDuracion(x)
    }
  }

  // ---------------------------------------------------------------------
  // ServicioFactory
  // ---------------------------------------------------------------------

  /** The key `crearServicioBase` accepts for each base service. */
  function ClaveBase(t: TipoBase): string
  {
    match t
    case Corte => "corte"
    case Barba => "barba"
    case Tratamiento => "tratamiento"
    case Premium => "premium"
    case Novio => "novio"
    case Coloracion => "coloracion"
  }

  /** The key `agregarExtra` accepts for each add-on. */
  function ClaveExtra(x: TipoExtra): string
  {
    match x
    case ExtraBarba => "barba"
    case ExtraMascarilla => "mascarilla"
    case ExtraLavado => "lavado"
    case ExtraMasaje => "masaje"
  }

  /** `crearServicioBase`: the base service with that key, or the thrown error. */
  function CrearServicioBase(tipo: string): (r: Result<Servicio, string>)
    ensures forall t :: tipo == ClaveBase(t) ==> r == Success(Base(t))
    ensures (forall t :: tipo != ClaveBase(t)) ==> r == Failure(ErrorTipoInvalido)
  {
    if tipo == "corte" then Success(Base(Corte))
    else if tipo == "barba" then Success(Base(Barba))
    else if tipo == "tratamiento" then Success(Base(Tratamiento))
    else if tipo == "premium" then Success(Base(Premium))
    else if tipo == "novio" then Success(Base(Novio))
    else if tipo == "coloracion" then Success(Base(Coloracion))
    else Failure(ErrorTipoInvalido)
  }

  /** The add-on a key names: the `switch` of `agregarExtra`. */
  function ExtraDeClave(clave: string): (r: Option<TipoExtra>)
    ensures forall x :: r == Some(x) <==> clave == ClaveExtra(x)
  {
    if clave == "barba" then Some(ExtraBarba)
    else if clave == "mascarilla" then Some(ExtraMascarilla)
    else if clave == "lavado" then Some(ExtraLavado)
    else if clave == "masaje" then Some(ExtraMasaje)
    else None
  }

  /** `agregarExtra`: wraps a known add-on around `s`; an unknown key returns `s` itself. */
  function AgregarExtra(s: Servicio, extra: string): (r: Servicio)
    ensures forall x :: extra == ClaveExtra(x) ==> r == Extra(x, s)
    ensures (forall x :: extra != ClaveExtra(x)) ==> r == s
  {
    match ExtraDeClave(extra)
    case Some(x) => Extra(x, s)
    case None => s
  }

  /** What one key adds to the price, the duration and the description. */
  function PrecioDeClave(clave: string): nat
  {
    match ExtraDeClave(clave)
    case Some(x) => IncrementoPrecio(x)
    case None => 0
  }

  function DuracionDeClave(clave: string): nat
  {
    match ExtraDeClave(clave)
    case Some(x) => IncrementoDuracion(x)
    case None => 0
  }

  function SufijoDeClave(clave: string): string
  {
    match ExtraDeClave(clave)
    case Some(x) => Sufijo(x)
    case None => ""
  }

  /** Wrapping adds exactly the add-on's increments and suffix; an unknown key adds nothing. */
  lemma AgregarExtraIncrementa(s: Servicio, clave: string)
    ensures AgregarExtra(s, clave).GetPrecio() == s.GetPrecio() + PrecioDeClave(clave)
    ensures AgregarExtra(s, clave).GetDuracion() == s.GetDuracion() + DuracionDeClave(clave)
    ensures AgregarExtra(s, clave).GetDescripcion() == s.GetDescripcion() + SufijoDeClave(clave)
    ensures AgregarExtra(s, clave).Raiz() == s.Raiz()
  {
  }

  /** Proof helper, for speed: the description clause of `AgregarExtraIncrementa` alone. */
  lemma AgregarExtraDescripcion(s: Servicio, clave: string)
    ensures AgregarExtra(s, clave).GetDescripcion() == s.GetDescripcion() + SufijoDeClave(clave)
  {
    AgregarExtraIncrementa(s, clave);
  }

  // ---------------------------------------------------------------------
  // Applying a list of add-on keys in order (the callers' forEach)
  // ---------------------------------------------------------------------

  /**
   * `agregarExtra` applied to each key in turn, first key innermost: the base
   * service is kept and price and duration never go down.
   */
  function AgregarExtras(s: Servicio, claves: seq<string>): (r: Servicio)
    ensures r.Raiz() == s.Raiz()
    ensures r.GetPrecio() >= s.GetPrecio() && r.GetDuracion() >= s.GetDuracion()
    decreases |claves|
  {
    if claves == [] then s else AgregarExtras(AgregarExtra(s, claves[0]), claves[1..])
  }

  function SumaPrecios(claves: seq<string>): nat
  {
    if claves == [] then 0 else PrecioDeClave(claves[0]) + SumaPrecios(claves[1..])
  }

  function SumaDuraciones(claves: seq<string>): nat
  {
    if claves == [] then 0 else DuracionDeClave(claves[0]) + SumaDuraciones(claves[1..])
  }

  function Sufijos(claves: seq<string>): string
  {
    if claves == [] then "" else SufijoDeClave(claves[0]) + Sufijos(claves[1..])
  }

  /**
   * Folding keys over a service adds the sum of their price increments;
   * repeated keys count every time.
   */
  lemma {:induction false} AgregarExtrasPrecio(s: Servicio, claves: seq<string>)
    ensures AgregarExtras(s, claves).GetPrecio() == s.GetPrecio() + SumaPrecios(claves)
    ensures AgregarExtras(s, claves).Raiz() == s.Raiz()
    decreases |claves|
  {
    if claves != [] {
      AgregarExtraIncrementa(s, claves[0]);
      AgregarExtrasPrecio(AgregarExtra(s, claves[0]), claves[1..]);
    }
  }

  /** Folding keys over a service adds the sum of their duration increments. */
  lemma {:induction false} AgregarExtrasDuracion(s: Servicio, claves: seq<string>)
    ensures AgregarExtras(s, claves).GetDuracion() == s.GetDuracion() + SumaDuraciones(claves)
    decreases |claves|
  {
    if claves != [] {
      AgregarExtraIncrementa(s, claves[0]);
      AgregarExtrasDuracion(AgregarExtra(s, claves[0]), claves[1..]);
    }
  }

  /** Folding keys over a service appends their suffixes in application order. */
  lemma {:induction false} AgregarExtrasDescripcion(s: Servicio, claves: seq<string>)
    ensures AgregarExtras(s, claves).GetDescripcion() == s.GetDescripcion() + Sufijos(claves)
    decreases |claves|
  {
    if claves != [] {
      var s' := AgregarExtra(s, claves[0]);
      var d, d0, ds := s.GetDescripcion(), SufijoDeClave(claves[0]), Sufijos(claves[1..]);
      assert AgregarExtras(s, claves) == AgregarExtras(s', claves[1..]);
      assert Sufijos(claves) == d0 + ds;
      AgregarExtraDescripcion(s, claves[0]);
      AgregarExtrasDescripcion(s', claves[1..]);
      assert (d + d0) + ds == d + (d0 + ds);
    }
  }

  /** A haircut with the beard and mask add-ons, in that order. */
  lemma EjemploCorteBarbaMascarilla()
    ensures AgregarExtras(Base(Corte), ["barba", "mascarilla"]).GetDescripcion()
            == "Corte de Cabello + Arreglo de Barba + Mascarilla Facial"
    ensures AgregarExtras(Base(Corte), ["barba", "mascarilla"]).GetPrecio() == 47000
    ensures AgregarExtras(Base(Corte), ["barba", "mascarilla"]).GetDuracion() == 65
  {
    var claves := ["barba", "mascarilla"];
    assert ClaveExtra(ExtraBarba) == claves[0] && ClaveExtra(ExtraMascarilla) == claves[1];
    var s1 := Extra(ExtraBarba, Base(Corte));
    var s2 := Extra(ExtraMascarilla, s1);
    assert AgregarExtra(Base(Corte), claves[0]) == s1;
    assert AgregarExtra(s1, claves[1]) == s2;
    assert claves[1..][1..] == [];
    assert AgregarExtras(Base(Corte), claves) == AgregarExtras(s1, claves[1..]) == s2;
    assert s2.GetDescripcion() == DescripcionBase(Corte) + Sufijo(ExtraBarba) + Sufijo(ExtraMascarilla);
    DescripcionCorteBarbaMascarilla();
  }

  lemma DescripcionCorteBarbaMascarilla()
    ensures DescripcionBase(Corte) + Sufijo(ExtraBarba) + Sufijo(ExtraMascarilla)
            == "Corte de Cabello + Arreglo de Barba + Mascarilla Facial"
  {
  }

  // ---------------------------------------------------------------------
  // ServicioConPrecio
  // ---------------------------------------------------------------------

  /**
   * A service with the pricing strategy fixed when it was built. The source
   * keeps the strategy inside a private CalculadoraPrecio that it never
   * re-sets, so the strategy itself is stored.
   */
  datatype ServicioConPrecio = ServicioConPrecio(servicio: Servicio, estrategia: Estrategia)
  {
    /** `getDescripcion`: the inner description, unchanged. */
    function GetDescripcion(): (r: string)
      ensures r == servicio.GetDescripcion()
    {
      servicio.GetDescripcion()
    }

    /** `getDuracion`: the inner duration, unchanged. */
    function GetDuracion(): (r: nat)
      ensures r == servicio.GetDuracion()
    {
      servicio.GetDuracion()
    }

    /** `getPrecioBase`: the inner price. */
    function GetPrecioBase(): (r: nat)
      ensures r == servicio.GetPrecio()
    {
      servicio.GetPrecio()
    }

    /**
     * `getPrecio`: the strategy applied to the inner price; always a whole
     * number, the base price in thousands times the strategy's per-mille factor.
     */
    function GetPrecio(): (r: real)
      ensures r == CalcularPrecio(estrategia, servicio.GetPrecio() as real)
      ensures r == (servicio.GetPrecio() / 1000 * PorMil(estrategia)) as real
    {
      var b := servicio.GetPrecio();
      PrecioEnteroSobreMiles(estrategia, b / 1000);
      CalcularPrecio(estrategia, b as real)
    }

    /** `getDescuentoAplicado`: the label of the strategy in use. */
    function GetDescuentoAplicado(): (r: string)
      ensures r == Descripcion(estrategia)
    {
      Descripcion(estrategia)
    }

    /**
     * `getAhorro`: base price minus final price; positive exactly under a
     * discount, negative exactly under the expert surcharge.
     */
    function GetAhorro(): (r: real)
      ensures r == GetPrecioBase() as real - GetPrecio()
      ensures r > 0.0 <==> EsDescuento(estrategia)
      ensures r < 0.0 <==> estrategia == BarberoExperto
      ensures r == 0.0 <==> estrategia == Normal
    {
      SentidoDelAjuste(estrategia, servicio.GetPrecio() as real);
      servicio.GetPrecio() as real - GetPrecio()
    }
  }

  /**
   * `new ServicioConPrecio(servicio, contexto)`: the strategy is chosen once,
   * from the weekday `hoy` the source reads from the clock and the context.
   */
  function NuevoServicioConPrecio(servicio: Servicio, contexto: Contexto, hoy: int): (r: ServicioConPrecio)
    ensures r.servicio == servicio
    ensures Aplica(r.estrategia, hoy, contexto)
    ensures forall e :: Aplica(e, hoy, contexto) ==> Rango(r.estrategia) <= Rango(e)
  {
    ServicioConPrecio(servicio, CrearEstrategia("auto", hoy, contexto))
  }

  /** A haircut on a Wednesday: 19800 after the 10% discount, 2200 saved. */
  lemma EjemploCorteMiercoles()
    ensures NuevoServicioConPrecio(Base(Corte), ContextoVacio, DiaMiercoles).GetPrecio() == 19800.0
    ensures NuevoServicioConPrecio(Base(Corte), ContextoVacio, DiaMiercoles).GetAhorro() == 2200.0
    ensures NuevoServicioConPrecio(Base(Corte), ContextoVacio, DiaMiercoles).GetDescuentoAplicado()
            == "Descuento miércoles (-10%)"
  {
  }

  /**
   * The context the service customiser passes (the expert barber and a first
   * visit) yields the surcharge on every day but Wednesday, so nothing is saved.
   */
  lemma ContextoDelPersonalizador(s: Servicio, hoy: int)
    requires hoy != DiaMiercoles
    ensures NuevoServicioConPrecio(s, Contexto(Some(BarberoExpertoNombre), false, true), hoy).GetAhorro() < 0.0
  {
  }
}
