/** The records of the water-utility back office (src/context/DataContext.tsx,
    types at lines 4-152). String unions become datatypes; optional fields become
    `Option`; quantities of money and volume are `real`, meter readings `int`. */
module Entities {
  import opened Wrappers

  datatype FactibilidadEstado = PreFactibilidad | EnComite | Aprobada | Rechazada
  datatype ConstruccionEstado = Planeacion | EnProceso | Finalizada
  datatype TomaEstado = Disponible | Asignada
  datatype ContratoEstado = PendienteDeAlta | Activo | Suspendido | Cancelado
  datatype MedidorEstado = MedidorActivo | MedidorInactivo
  datatype LecturaEstado = Valida | NoValida | LecturaPendiente
  datatype PreFacturaEstado = Pendiente | Validada | Aceptada
  datatype TimbradoEstado = TimbradaOK | ErrorPAC | TimbradoPendiente

  /** The kind of a service point, also used as the contract kind. */
  datatype TipoToma = Agua | Saneamiento | Alcantarillado

  /** The tariff's service class. */
  datatype ServiceClass = Domestico | Comercial | Industrial

  datatype ConsumoTipo = ConsumoReal | PromedioHistorico | Mixto | ConsumoFijo
  datatype PagoTipo = Efectivo | Transferencia | Tarjeta

  datatype Factibilidad = Factibilidad(
    id: string, predio: string, solicitante: string, direccion: string,
    estado: FactibilidadEstado, fecha: string, notas: string)

  datatype Construccion = Construccion(
    id: string, factibilidadId: string, nombre: string, ubicacion: string,
    estado: ConstruccionEstado, fecha: string)

  datatype Toma = Toma(
    id: string, construccionId: string, ubicacion: string, tipo: TipoToma, estado: TomaEstado)

  datatype Contrato = Contrato(
    id: string, tomaId: string, tipoContrato: TipoToma, tipoServicio: ServiceClass,
    nombre: string, rfc: string, direccion: string, contacto: string,
    estado: ContratoEstado, fecha: string,
    medidorId: Option<string>, rutaId: Option<string>)

  datatype Medidor = Medidor(
    id: string, contratoId: string, serie: string, estado: MedidorEstado,
    cobroDiferido: bool, lecturaInicial: int)

  datatype Ruta = Ruta(
    id: string, zona: string, sector: string, libreta: string, lecturista: string,
    contratoIds: seq<string>)

  datatype Lectura = Lectura(
    id: string, contratoId: string, rutaId: string,
    lecturaAnterior: int, lecturaActual: int, consumo: int,
    estado: LecturaEstado, incidencia: string, fecha: string, periodo: string)

  datatype Consumo = Consumo(
    id: string, contratoId: string, lecturaId: string, tipo: ConsumoTipo,
    m3: real, periodo: string, confirmado: bool)

  datatype Tarifa = Tarifa(
    id: string, tipo: ServiceClass, rangoMin: real, rangoMax: real,
    precioPorM3: real, cargoFijo: real)

  datatype PreFactura = PreFactura(
    id: string, contratoId: string, periodo: string, consumoM3: real,
    subtotal: real, descuento: real, total: real, estado: PreFacturaEstado)

  datatype Timbrado = Timbrado(
    id: string, preFacturaId: string, contratoId: string, uuid: string,
    estado: TimbradoEstado, error: Option<string>, fecha: string)

  /** Receipt balances are whole amounts: the source rounds them to the nearest integer. */
  datatype Recibo = Recibo(
    id: string, timbradoId: string, contratoId: string,
    saldoVigente: int, saldoVencido: int, parcialidades: nat,
    fechaVencimiento: string, impreso: bool)

  datatype Pago = Pago(
    id: string, contratoId: string, monto: real, fecha: string, tipo: PagoTipo, concepto: string)

  // Keys, as function values for the generic record operations.
  function FactibilidadKey(x: Factibilidad): string { x.id }
  function ConstruccionKey(x: Construccion): string { x.id }
  function TomaKey(x: Toma): string { x.id }
  function ContratoKey(x: Contrato): string { x.id }
  function MedidorKey(x: Medidor): string { x.id }
  function RutaKey(x: Ruta): string { x.id }
  function LecturaKey(x: Lectura): string { x.id }
  function ConsumoKey(x: Consumo): string { x.id }
  function PreFacturaKey(x: PreFactura): string { x.id }
  function TimbradoKey(x: Timbrado): string { x.id }
  function ReciboKey(x: Recibo): string { x.id }
  function PagoKey(x: Pago): string { x.id }

  /** The contract already belongs to a route: its route identifier is present and not empty. */
  predicate HasRuta(c: Contrato) {
    c.rutaId.Some? && c.rutaId.value != ""
  }
}
