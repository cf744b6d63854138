/** The contract page (src/pages/Contratos.tsx): the three-step wizard that
    registers a contract on an available service point. */
module Contratos {
  import opened Wrappers
  import opened Entities
  import opened Records
  import opened Data
  import Clock

  predicate IsDisponible(t: Toma) {
    t.estado == Disponible
  }

  /** The service points the first step offers. */
  function Disponibles(s: Store): (r: seq<Toma>)
    ensures forall t :: t in r <==> t in s.tomas && t.estado == Disponible
  {
    Filter(s.tomas, IsDisponible)
  }

  /** The wizard fields. The three selects start empty; a select, once set,
      only holds one of its options. */
  datatype Form = Form(
    tomaId: string,
    tipoContrato: Option<TipoToma>,
    tipoServicio: Option<ServiceClass>,
    nombre: string,
    rfc: string,
    direccion: string,
    contacto: string)

  const EmptyForm := Form("", None, None, "", "", "", "")

  /** The wizard dialog: whether it is open, the step shown, the fields. */
  datatype Wizard = Wizard(open: bool, step: nat, form: Form)

  const Inicial := Wizard(false, 1, EmptyForm)

  /** What the first step's "Siguiente" button requires. */
  predicate Paso1Completo(f: Form) {
    f.tomaId != "" && f.tipoContrato.Some? && f.tipoServicio.Some?
  }

  /** What the second step's "Siguiente" button requires. */
  predicate Paso2Completo(f: Form) {
    f.nombre != "" && f.rfc != ""
  }

  /** Everything the user can do with the page. */
  datatype Evento =
    | Abrir                            // "Alto de contrato": step 1, open
    | AbrirEnlace                      // the `?new=1` link: open, step kept
    | Cerrar
    | ElegirToma(tomaId: string)
    | ElegirTipoContrato(tipo: TipoToma)
    | ElegirTipoServicio(clase: ServiceClass)
    | EditarNombre(nombre: string)
    | EditarRfc(rfc: string)
    | EditarDireccion(direccion: string)
    | EditarContacto(contacto: string)
    | Siguiente
    | Atras
    | Crear

  datatype Paso = Paso(store: Store, wizard: Wizard)

  /** The contract `handleCreate` submits: the wizard fields, 'Pendiente de alta',
      dated today, with neither meter nor route. */
  function Nuevo(f: Form, now: string): Contrato
    requires Paso1Completo(f)
  {
    Contrato("", f.tomaId, f.tipoContrato.value, f.tipoServicio.value, f.nombre, f.rfc,
             f.direccion, f.contacto, PendienteDeAlta, Clock.DatePart(now), None, None)
  }

  /** What the wizard keeps true between events: the step is 1, 2 or 3, and
      every step behind the current one was completed when it was left. */
  predicate WizardOk(w: Wizard) {
    && 1 <= w.step <= 3
    && (w.step >= 2 ==> Paso1Completo(w.form))
    && (w.step == 3 ==> Paso2Completo(w.form))
  }

  /** One user event. None when the control is not on screen or is disabled
      (the page's open button lies behind the wizard dialog while that is
      open); the store changes only on "Crear contrato". */
  function Handle(s: Store, w: Wizard, e: Evento, now: string): (r: Option<Paso>)
    ensures e.Abrir? ==> (r.Some? <==> !w.open && |Disponibles(s)| > 0)
    ensures e.Abrir? && r.Some? ==> r.value.wizard == w.(open := true, step := 1)
    ensures e.Siguiente? ==>
              (r.Some? <==> w.open && ((w.step == 1 && Paso1Completo(w.form)) || (w.step == 2 && Paso2Completo(w.form))))
    ensures e.Siguiente? && r.Some? ==> r.value.wizard == w.(step := w.step + 1)
    ensures e.Atras? ==> (r.Some? <==> w.open && (w.step == 2 || w.step == 3))
    ensures e.Atras? && r.Some? ==> r.value.wizard == w.(step := w.step - 1)
    ensures e.ElegirToma? && r.Some? ==>
              exists t :: t in s.tomas && t.estado == Disponible && t.id == e.tomaId
    ensures e.Crear? ==> (r.Some? <==> w.open && w.step == 3)
    ensures !e.Crear? && r.Some? ==> r.value.store == s
    ensures r.Some? && !e.Abrir? && !e.AbrirEnlace? ==> w.open
    ensures e.Crear? && r.Some? ==> r.value.wizard == Inicial
    ensures r.Some? && WizardOk(w) ==> WizardOk(r.value.wizard)
  {
    if !w.open && !e.Abrir? && !e.AbrirEnlace? then None
    else match e
      case Abrir => if !w.open && |Disponibles(s)| > 0 then Some(Paso(s, w.(open := true, step := 1))) else None
      case AbrirEnlace => Some(Paso(s, w.(open := true)))
      case Cerrar => Some(Paso(s, w.(open := false)))
      case ElegirToma(id) =>
        if w.step == 1 && exists t :: t in Disponibles(s) && t.id == id
        then Some(Paso(s, w.(form := w.form.(tomaId := id)))) else None
      case ElegirTipoContrato(tipo) =>
        if w.step == 1 then Some(Paso(s, w.(form := w.form.(tipoContrato := Some(tipo))))) else None
      case ElegirTipoServicio(clase) =>
        if w.step == 1 then Some(Paso(s, w.(form := w.form.(tipoServicio := Some(clase))))) else None
      case EditarNombre(x) => if w.step == 2 then Some(Paso(s, w.(form := w.form.(nombre := x)))) else None
      case EditarRfc(x) => if w.step == 2 then Some(Paso(s, w.(form := w.form.(rfc := x)))) else None
      case EditarDireccion(x) => if w.step == 2 then Some(Paso(s, w.(form := w.form.(direccion := x)))) else None
      case EditarContacto(x) => if w.step == 2 then Some(Paso(s, w.(form := w.form.(contacto := x)))) else None
      case Siguiente =>
        if (w.step == 1 && Paso1Completo(w.form)) || (w.step == 2 && Paso2Completo(w.form))
        then Some(Paso(s, w.(step := w.step + 1))) else None
      case Atras => if w.step == 2 || w.step == 3 then Some(Paso(s, w.(step := w.step - 1))) else None
      case Crear =>
        if w.step == 3 then
          Some(Paso(AddContrato(s, Contrato("", w.form.tomaId, w.form.tipoContrato.GetOr(Agua),
                                            w.form.tipoServicio.GetOr(Domestico), w.form.nombre, w.form.rfc,
                                            w.form.direccion, w.form.contacto, PendienteDeAlta,
                                            Clock.DatePart(now), None, None)),
                    Inicial))
        else None
  }

  /** Every step can only be left forwards once its fields are complete, so
      "Crear contrato" always submits a complete contract: the record appended
      is `Nuevo(form)`, 'Pendiente de alta' with neither meter nor route, and its
      service point becomes 'Asignada'. */
  lemma CrearSubmitsComplete(s: Store, w: Wizard, now: string)
    requires WizardOk(w) && w.open && w.step == 3
    ensures Paso1Completo(w.form) && Paso2Completo(w.form)
    ensures var r := Handle(s, w, Crear, now).value.store;
            && r == AddContrato(s, Nuevo(w.form, now))
            && r.contratos[|s.contratos|].estado == PendienteDeAlta
            && r.contratos[|s.contratos|].medidorId.None?
            && r.contratos[|s.contratos|].rutaId.None?
            && r.contratos[|s.contratos|].tomaId == w.form.tomaId
            && forall i :: 0 <= i < |s.tomas| && s.tomas[i].id == w.form.tomaId ==> r.tomas[i].estado == Asignada
  {
  }

  /** A run of events; an event whose control is not available changes nothing. */
  function Run(s: Store, w: Wizard, es: seq<Evento>, now: string): Paso
    decreases |es|
  {
    if |es| == 0 then Paso(s, w)
    else match Handle(s, w, es[0], now)
      case None => Run(s, w, es[1..], now)
      case Some(p) => Run(p.store, p.wizard, es[1..], now)
  }

  /** Whatever the user does, the wizard invariant holds at every point. */
  lemma {:induction false} RunKeepsWizard(s: Store, w: Wizard, es: seq<Evento>, now: string)
    requires WizardOk(w)
    ensures WizardOk(Run(s, w, es, now).wizard)
    decreases |es|
  {
    if |es| > 0 {
      match Handle(s, w, es[0], now)
      case None => RunKeepsWizard(s, w, es[1..], now);
      case Some(p) => RunKeepsWizard(p.store, p.wizard, es[1..], now);
    }
  }

  /** The wizard keeps the store's identifiers well formed and route-symmetric. */
  lemma {:induction false} RunKeepsStore(s: Store, w: Wizard, es: seq<Evento>, now: string)
    requires WellFormed(s) && RouteSymmetric(s) && RouteRefsIssued(s)
    ensures var p := Run(s, w, es, now);
            WellFormed(p.store) && RouteSymmetric(p.store) && RouteRefsIssued(p.store)
    decreases |es|
  {
    if |es| > 0 {
      match Handle(s, w, es[0], now)
      case None => RunKeepsStore(s, w, es[1..], now);
      case Some(p) =>
        if es[0].Crear? {
          var c := Contrato("", w.form.tomaId, w.form.tipoContrato.GetOr(Agua),
                            w.form.tipoServicio.GetOr(Domestico), w.form.nombre, w.form.rfc,
                            w.form.direccion, w.form.contacto, PendienteDeAlta,
                            Clock.DatePart(now), None, None);
          assert p.store == AddContrato(s, c);
          AddContratoKeepsSymmetry(s, c);
        }
        RunKeepsStore(p.store, p.wizard, es[1..], now);
    }
  }
}
