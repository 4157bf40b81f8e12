# Barbershop booking core, modelled in Dafny

This project models the domain core of a barbershop booking front-end (`src/core`). The core has three parts:

- **Service composition and pricing.** There are six fixed base services: haircut, beard trim, hair treatment, premium experience, groom pack and colouring. Four add-on decorators each raise the price and the duration by a fixed amount and append a `" + …"` suffix to the description. A factory builds services from string keys. A *priced service* applies one pricing strategy, chosen once when it is built. The choice is by precedence: Wednesday first, then the expert barber, then the repeat customer, then the first visit, then the standard price.
- **Appointment lifecycle.** Five state values say which of the four actions (`confirmar`, `cancelar`, `iniciar`, `finalizar`) they would reject, and with which message, and which actions they permit. An appointment (`Cita`) holds a mutable state that starts at *Pendiente*. Its four action methods assign their target state unconditionally.
- **Global configuration.** This is a lazily created singleton with opening and closing hours, a cancellation-policy text and a Wednesday discount fraction, each with a setter. It provides an inclusive opening-hours check that compares `"HH:MM"` strings lexicographically. It also provides a booking validation that runs five checks in order and stops at the first failure.

Files (one module each):

- `wrappers.dfy`: `Option`, `Result` and `Outcome`.
- `estrategia_precios.dfy`: module `EstrategiaPrecios` (the strategies, the calculator class and the factory).
- `servicio_barberia.dfy`: module `ServicioBarberia` (the service datatype, the factory and the priced service).
- `estado_cita.dfy`: module `EstadoCita` (the state values).
- `cita.dfy`: module `Modelos` (class `Cita` and the lemmas about action sequences).
- `global_config.dfy`: module `Configuracion` (class `GlobalConfig`, the singleton holder `Proceso`, string order and validation).

Modelling choices:

- **Decorators.** The class hierarchy of services becomes the recursive datatype `Servicio`, where `Base(t)` is a base service and `Extra(x, inner)` is a decorator.
- **State classes.** These have no fields, so they become the enum `Estado`. `Ejecutar(e, a)` says whether state `e`'s method for action `a` returns (`Pass`) or throws (`Fail(message)`).
- **Classes that keep changing state.** `CalculadoraPrecio`, `Cita` and `GlobalConfig` are Dafny classes with `modifies this` methods. `Cita`'s read-only business fields are `const`.
- **Priced service.** `ServicioConPrecio` never reassigns its fields, so it is a datatype holding the inner service and the chosen strategy.
- **Prices.** Service prices are `nat`. Strategies multiply exact `real`s and do not round, as in the source.
- **Clock.** The weekday that `crearEstrategia` reads from the clock is the parameter `hoy`.
- **Date parsing.** The result of parsing the date in `validarCita` is the input `fechaLeida`: `None` for an invalid date, `Some(getDay())` otherwise.

Behaviour of the code that the model keeps as written:

- The strategies apply no rounding to final prices (src/core/EstrategiaPrecios.ts:19-55).
- `Cita`'s action methods never consult the current state, so every action succeeds from every state (src/core/models/Cita.ts:26-40).
- The Wednesday strategy hard-codes the factor 0.9 and never reads the configured `descuentoMiercoles` (src/core/EstrategiaPrecios.ts:19-22).
- The hours check runs before the Sunday check, so a Sunday outside opening hours gets the hours message (src/core/GlobalConfig.ts:42-59).
- Labels and messages are the code's Spanish strings.

## Model

| member | source | states |
|---|---|---|
| EstrategiaPrecios.CalcularPrecio | src/core/EstrategiaPrecios.ts:8-60 | each strategy multiplies the base by its fixed factor (1, 0.9, 1.2, 0.85, 0.95, given in thousandths by `PorMil`); Normal is the identity |
| EstrategiaPrecios.Descripcion | src/core/EstrategiaPrecios.ts:13-59 | each strategy's label carries a minus sign exactly for the three discounts and a plus sign exactly for the expert surcharge, so the label's sign agrees with the direction of the adjustment |
| EstrategiaPrecios.DescripcionInyectiva | src/core/EstrategiaPrecios.ts:13-59 | the five strategy labels are pairwise distinct |
| EstrategiaPrecios.Acotado | src/core/EstrategiaPrecios.ts:19-60 | for a non-negative base the three discounts never exceed it and the surcharge and Normal never go below it |
| EstrategiaPrecios.Monotona | src/core/EstrategiaPrecios.ts:20-55 | every strategy is monotone: a larger base never gives a smaller price |
| EstrategiaPrecios.SentidoDelAjuste | src/core/EstrategiaPrecios.ts:20-55 | for a positive base the price drops if and only if the strategy is a discount, rises if and only if it is the expert surcharge, and is unchanged if and only if it is Normal |
| EstrategiaPrecios.PrecioEnteroSobreMiles | src/core/EstrategiaPrecios.ts:20-55 | on a multiple of 1000 every strategy gives a whole number (k·1000 ↦ k·factor-in-thousandths), so the missing rounding never shows |
| EstrategiaPrecios.CalculadoraPrecio.constructor | src/core/EstrategiaPrecios.ts:66-68 | the calculator starts with the given strategy |
| EstrategiaPrecios.CalculadoraPrecio.SetEstrategia | src/core/EstrategiaPrecios.ts:70-72 | after the call the strategy is the new one, and the calculator has no other state |
| EstrategiaPrecios.CalculadoraPrecio.CalcularPrecioFinal | src/core/EstrategiaPrecios.ts:74-76 | the result is the base times the current strategy's factor |
| EstrategiaPrecios.CalculadoraPrecio.GetDescripcionEstrategia | src/core/EstrategiaPrecios.ts:78-80 | the result is the current strategy's label |
| EstrategiaPrecios.CrearEstrategia | src/core/EstrategiaPrecios.ts:85-110 | the chosen strategy applies to (weekday, context), and no applicable strategy has higher precedence (Wednesday, then the expert, then repeat customer, then first visit, then standard) |
| EstrategiaPrecios.CrearEstrategiaUnica | src/core/EstrategiaPrecios.ts:89-109 | the precedence specification determines the factory's result uniquely |
| EstrategiaPrecios.TipoIgnorado | src/core/EstrategiaPrecios.ts:85-110 | the `tipo` argument never changes the choice |
| EstrategiaPrecios.PrecedenciaEjemplos | src/core/EstrategiaPrecios.ts:89-109 | day 3 gives the Wednesday discount whatever the context; otherwise the expert barber gives the surcharge even with loyalty flags set; an empty context gives the standard price |
| ServicioBarberia.Servicio.GetDescripcion | src/core/ServicioBarberia.ts:11-113 | every composed description starts with its base service's description |
| ServicioBarberia.Servicio.GetPrecio | src/core/ServicioBarberia.ts:11-113 | every composed price is a positive multiple of 1000 and at least the base service's price |
| ServicioBarberia.Servicio.GetDuracion | src/core/ServicioBarberia.ts:11-113 | every composed duration is positive and at least the base service's duration |
| ServicioBarberia.CrearServicioBase | src/core/ServicioBarberia.ts:117-134 | each of the six keys gives its base service; any other string gives the error "Tipo de servicio no válido" |
| ServicioBarberia.ExtraDeClave | src/core/ServicioBarberia.ts:136-149 | a key names add-on x exactly when it is x's key; the four keys are distinct |
| ServicioBarberia.AgregarExtra | src/core/ServicioBarberia.ts:136-149 | a known key wraps its add-on around the input; an unknown key returns the input unchanged |
| ServicioBarberia.AgregarExtraIncrementa | src/core/ServicioBarberia.ts:59-149 | one wrap adds exactly that add-on's price and duration increments and suffix (nothing for an unknown key) and keeps the base service |
| ServicioBarberia.AgregarExtras | src/components/ServiceCustomizer.tsx:58-61 | applying `agregarExtra` to each selected key in turn keeps the base service and never lowers the price or the duration |
| ServicioBarberia.AgregarExtrasPrecio | src/components/ServiceCustomizer.tsx:58-61 | adding keys in order adds the sum of their price increments, repeats included, and keeps the base service |
| ServicioBarberia.AgregarExtrasDuracion | src/components/ServiceCustomizer.tsx:58-61 | adding keys in order adds the sum of their duration increments |
| ServicioBarberia.AgregarExtrasDescripcion | src/components/ServiceCustomizer.tsx:58-61 | adding keys in order appends their suffixes in application order |
| ServicioBarberia.EjemploCorteBarbaMascarilla | src/core/ServicioBarberia.ts:59-85 | haircut + beard + mask is "Corte de Cabello + Arreglo de Barba + Mascarilla Facial", 47000, 65 minutes |
| ServicioBarberia.ServicioConPrecio.GetDescripcion | src/core/ServicioBarberia.ts:165-167 | the description passes through unchanged |
| ServicioBarberia.ServicioConPrecio.GetDuracion | src/core/ServicioBarberia.ts:174-176 | the duration passes through unchanged |
| ServicioBarberia.ServicioConPrecio.GetPrecioBase | src/core/ServicioBarberia.ts:182-184 | the base price is the inner service's price |
| ServicioBarberia.ServicioConPrecio.GetPrecio | src/core/ServicioBarberia.ts:169-172 | the final price is the fixed strategy applied to the inner price, and it is a whole number |
| ServicioBarberia.ServicioConPrecio.GetDescuentoAplicado | src/core/ServicioBarberia.ts:178-180 | the label is the fixed strategy's label |
| ServicioBarberia.ServicioConPrecio.GetAhorro | src/core/ServicioBarberia.ts:186-188 | savings = base price − final price; positive exactly under a discount, negative exactly under the expert surcharge, zero exactly under the standard price |
| ServicioBarberia.NuevoServicioConPrecio | src/core/ServicioBarberia.ts:156-163 | the strategy is fixed at construction by the factory's precedence over the weekday and the context |
| ServicioBarberia.EjemploCorteMiercoles | src/core/ServicioBarberia.ts:169-188 | a haircut on a Wednesday costs 19800, saves 2200 and is labelled "Descuento miércoles (-10%)" |
| ServicioBarberia.ContextoDelPersonalizador | src/components/ServiceCustomizer.tsx:64-67 | the context the customiser passes gives negative savings on every day except Wednesday |
| EstadoCita.Ejecutar | src/core/EstadoCita.ts:11-59 | whether each state's action method returns or throws, as if-and-only-if per action: `confirmar` returns exactly from Pendiente, `iniciar` exactly from Confirmada, `finalizar` exactly from En Proceso, `cancelar` exactly from Pendiente or Confirmada; terminal states throw on every action, Finalizada always with "La cita ya finalizó"; every other thrown message is non-empty (the exact texts are in the body only) |
| EstadoCita.GetNombre | src/core/EstadoCita.ts:17-61 | each state's display name is non-empty and capitalised (distinctness is `NombresDistintos`) |
| EstadoCita.GetColor | src/core/EstadoCita.ts:18-62 | each state's colour is a `bg-…-500` class |
| EstadoCita.ColoresDistintos | src/core/EstadoCita.ts:18-62 | the five colours are pairwise distinct, so the colour identifies the state |
| EstadoCita.GetAccionesPermitidas | src/core/EstadoCita.ts:11-64 | an action is listed if and only if that state's method for it does not throw; lists are duplicate-free, contain only action names, and are empty exactly for Finalizada and Cancelada |
| EstadoCita.NombresDistintos | src/core/EstadoCita.ts:17-61 | the five state names are pairwise distinct |
| EstadoCita.TerminalRechazaTodo | src/core/EstadoCita.ts:44-64 | Finalizada and Cancelada throw on all four actions |
| Modelos.Cita.constructor | src/core/models/Cita.ts:13-23 | a new appointment stores its seven business fields and starts in Pendiente |
| Modelos.Cita.Confirmar | src/core/models/Cita.ts:26-28 | always sets the state to Confirmada, from any state, with no precondition |
| Modelos.Cita.Cancelar | src/core/models/Cita.ts:30-32 | always sets the state to Cancelada, from any state |
| Modelos.Cita.Iniciar | src/core/models/Cita.ts:34-36 | always sets the state to En Proceso, from any state |
| Modelos.Cita.Finalizar | src/core/models/Cita.ts:38-40 | always sets the state to Finalizada, from any state |
| Modelos.Cita.GetNombreEstado | src/core/models/Cita.ts:47-49 | the current state's name |
| Modelos.Cita.GetColorEstado | src/core/models/Cita.ts:51-53 | the current state's colour |
| Modelos.Cita.GetAccionesPermitidas | src/core/models/Cita.ts:55-57 | the current state's permitted list: exactly the actions the current state would not reject |
| Modelos.SinGuarda | src/core/models/Cita.ts:25-40 | without the interface's guard, any non-empty action sequence ends in its last action's target, whatever the starting state |
| Modelos.Idempotente | src/core/models/Cita.ts:26-40 | issuing an action twice leaves the same state as issuing it once |
| Modelos.FinalizadaReabierta | src/core/models/Cita.ts:26-28 | a finished appointment's state rejects `confirmar`, yet calling `Cita.confirmar` moves it to Confirmada |
| Modelos.PasoPermitido | src/components/CitaModal.tsx:148 | a permitted step goes from Pendiente only to Confirmada or Cancelada, from Confirmada only to En Proceso or Cancelada, from En Proceso only to Finalizada, never from a terminal state, and always forward |
| Modelos.CaminoFeliz | src/core/EstadoCita.ts:11-42 | confirming, starting and finishing a pending appointment is a guarded sequence (each action is permitted where it is issued) that ends in Finalizada |
| Modelos.RecorridoGuardado | src/core/models/Cita.ts:26-57 | a sequence of only permitted actions moves strictly forward, has at most three steps, and is empty from a terminal state |
| Configuracion.LexLe | src/core/GlobalConfig.ts:94 | JavaScript's string `<=`: a prefix is always at most the longer string, and a string at most one of its own prefixes is that prefix |
| Configuracion.LexLeReflexiva | src/core/GlobalConfig.ts:93-95 | string `<=` is reflexive |
| Configuracion.LexLeAntisimetrica | src/core/GlobalConfig.ts:93-95 | string `<=` is antisymmetric |
| Configuracion.LexLeTransitiva | src/core/GlobalConfig.ts:93-95 | string `<=` is transitive |
| Configuracion.LexLeTotal | src/core/GlobalConfig.ts:93-95 | string `<=` is total |
| Configuracion.HoraLexicaEsCronologica | src/core/GlobalConfig.ts:93-95 | on well-formed "HH:MM" hours, string order equals order of minutes since midnight |
| Configuracion.PrimerFallo | src/core/GlobalConfig.ts:30-65 | the first failing check's message; none exactly when every check passes |
| Configuracion.GlobalConfig.constructor | src/core/GlobalConfig.ts:4-9 | initial values "09:00", "20:00", "2 horas antes", 0.1 |
| Configuracion.GlobalConfig.GetPoliticaCancelacion | src/core/GlobalConfig.ts:25-27 | "Puedes cancelar hasta " + policy + " de tu cita sin penalización", with the policy recoverable between prefix and suffix |
| Configuracion.GlobalConfig.EsHorarioValido | src/core/GlobalConfig.ts:93-95 | holds if and only if opening ≤ hour ≤ closing in string order, both bounds inclusive; never holds when opening > closing |
| Configuracion.GlobalConfig.ValidarCita | src/core/GlobalConfig.ts:30-65 | `valido` holds if and only if there is no error, if and only if date and hour are non-empty, the hour is within hours, and the date parses to a weekday other than Sunday; an empty date is reported first; the out-of-hours message embeds the current hours |
| Configuracion.ValidarCitaEsPrimerFallo | src/core/GlobalConfig.ts:30-65 | the error is that of the first failing check in the order: date, hour, hours, parse, Sunday |
| Configuracion.GlobalConfig.SetHorarioApertura | src/core/GlobalConfig.ts:68-71 | sets the opening hour; the other three fields are unchanged |
| Configuracion.GlobalConfig.SetHorarioCierre | src/core/GlobalConfig.ts:73-76 | sets the closing hour; the other three fields are unchanged |
| Configuracion.GlobalConfig.SetPoliticaCancelacion | src/core/GlobalConfig.ts:78-81 | sets the policy text; the other three fields are unchanged |
| Configuracion.GlobalConfig.SetDescuentoMiercoles | src/core/GlobalConfig.ts:83-86 | sets the discount fraction; the other three fields are unchanged |
| Configuracion.Proceso.constructor | src/core/GlobalConfig.ts:2 | no instance exists before the first request |
| Configuracion.Proceso.GetInstance | src/core/GlobalConfig.ts:11-16 | the first call creates a configuration in its initial state; every later call returns that same object |
| Configuracion.HorarioInvertidoVacio | src/core/GlobalConfig.ts:93-95 | with opening after closing no hour is valid |
| Configuracion.EjemploFueraDeHorario | src/core/GlobalConfig.ts:42-47 | with the initial hours, "21:00" is rejected with "❌ La cita debe estar entre 09:00 y 20:00" |
| Configuracion.EjemploDomingo | src/core/GlobalConfig.ts:56-59 | a non-empty Sunday date with an hour within opening hours is rejected with the Sunday message |

## Left out

- The React components and `App.tsx` are not part of this model: layout, `useState`, alerts, logging and the session list of appointments. The customiser's loop over selected add-ons is modelled only as the fold `AgregarExtras`.
- The clock read in `crearEstrategia` (`new Date().getDay()`) is not modelled; the weekday is the parameter `hoy`.
- Date parsing and the weekday in `validarCita` are not modelled. They depend on the host's time zone, so their result is the input `fechaLeida`. The `catch` branch ("❌ Error al validar la fecha") is left out, because nothing in the modelled inputs can trigger it.
- IEEE-754 behaviour of the price multiplications is left out; prices are exact reals. Because every composed price is a multiple of 1000, the exact results are whole numbers.
- Truthiness of arbitrary JavaScript values in `contexto` is not modelled. The context's flags are booleans and `barbero` is an optional string.
- `LexLe` compares Unicode scalar values, whereas JavaScript compares UTF-16 code units. The two differ only for characters outside the Basic Multilingual Plane.
- `notificarCambios` only logs to the console and is not modelled.
- The plain getters are not separate members. These are `getEstado` and the four `GlobalConfig` accessors; in the model they are the public fields `estado`, `horarioApertura`, `horarioCierre`, `politicaCancelacion` and `descuentoMiercoles`.
- Wrapping a `ServicioConPrecio` inside an add-on decorator, or inside another `ServicioConPrecio`, is not modelled. The type system of the source allows both (src/core/ServicioBarberia.ts:157), but no caller does either.
- `ServicioConPrecio`'s private `CalculadoraPrecio` object and the `contexto` it keeps are not modelled. They are represented by the strategy chosen at construction: the calculator's strategy is never re-set after construction, and the `contexto` is never read after the constructor.
