/**
 * The record shapes of the RIPS flat files (ErroresJSON/src/models.py): one
 * datatype per file kind, its fields in the order of the file's columns.
 * `Fields` lists a record's values in that order and `<Kind>FromFields`
 * builds a record from a line's fields; the two are inverse.
 */
module Models {
  /** The nine RIPS file kinds. */
  datatype Kind = AF | US | AC | AP | AT | AH | AM | AN | CT

  /** The AF file: one invoice (transaction) per line. */
  datatype AFRecord = AFRecord(
    codPrestador: string,
    nombrePrestador: string,
    tipoDocumentoPrestador: string,
    numDocumentoPrestador: string,
    numFactura: string,
    fechaExpedicion: string,
    fechaInicio: string,
    fechaFinal: string,
    codEntidadAdministradora: string,
    nombreEntidadAdministradora: string,
    numContrato: string,
    planBeneficios: string,
    numPoliza: string,
    valorComision: string,
    numCuotasModeradoras: string,
    valorComisionCm: string,
    valorNeto: string
  )
  {
    /** The values in column order. */
    function Fields(): (r: seq<string>)
      ensures |r| == 17
    {
      [codPrestador, nombrePrestador, tipoDocumentoPrestador, numDocumentoPrestador, numFactura, fechaExpedicion, fechaInicio, fechaFinal, codEntidadAdministradora, nombreEntidadAdministradora, numContrato, planBeneficios, numPoliza, valorComision, numCuotasModeradoras, valorComisionCm, valorNeto]
    }
  }

  /** The record whose i-th declared field is the line's i-th field. */
  function AFFromFields(f: seq<string>): (r: AFRecord)
    requires |f| == 17
  {
    AFRecord(f[0], f[1], f[2], f[3], f[4], f[5], f[6], f[7], f[8], f[9], f[10], f[11], f[12], f[13], f[14], f[15], f[16])
  }

  /** A record built from a line's fields lists those fields again, in order. */
  lemma AFFieldsOfFromFields(f: seq<string>)
    requires |f| == 17
    ensures AFFromFields(f).Fields() == f
  {
  }

  /** A record is determined by its fields. */
  lemma AFFromFieldsOfFields(x: AFRecord)
    ensures AFFromFields(x.Fields()) == x
  {
  }

  /** The US file: one user (patient) per line. */
  datatype USRecord = USRecord(
    tipoDocumento: string,
    numDocumento: string,
    codEntidadAdministradora: string,
    tipoUsuario: string,
    primerApellido: string,
    segundoApellido: string,
    primerNombre: string,
    segundoNombre: string,
    edad: string,
    unidadMedidaEdad: string,
    sexo: string,
    codDepartamento: string,
    codMunicipio: string,
    zonaResidencial: string,
    numAutorizacion: string
  )
  {
    /** The values in column order. */
    function Fields(): (r: seq<string>)
      ensures |r| == 15
    {
      [tipoDocumento, numDocumento, codEntidadAdministradora, tipoUsuario, primerApellido, segundoApellido, primerNombre, segundoNombre, edad, unidadMedidaEdad, sexo, codDepartamento, codMunicipio, zonaResidencial, numAutorizacion]
    }
  }

  /** The record whose i-th declared field is the line's i-th field. */
  function USFromFields(f: seq<string>): (r: USRecord)
    requires |f| == 15
  {
    USRecord(f[0], f[1], f[2], f[3], f[4], f[5], f[6], f[7], f[8], f[9], f[10], f[11], f[12], f[13], f[14])
  }

  /** A record built from a line's fields lists those fields again, in order. */
  lemma USFieldsOfFromFields(f: seq<string>)
    requires |f| == 15
    ensures USFromFields(f).Fields() == f
  {
  }

  /** A record is determined by its fields. */
  lemma USFromFieldsOfFields(x: USRecord)
    ensures USFromFields(x.Fields()) == x
  {
  }

  /** The AC file: one consultation per line. */
  datatype ACRecord = ACRecord(
    numFactura: string,
    codPrestador: string,
    tipoDocumento: string,
    numDocumento: string,
    fechaConsulta: string,
    numAutorizacion: string,
    codConsulta: string,
    codConsultaSistema: string,
    descripcionConsulta: string,
    finalidadConsulta: string,
    causaExterna: string,
    diagnosticoPrincipal: string,
    diagnosticoRelacionado1: string,
    diagnosticoRelacionado2: string,
    diagnosticoRelacionado3: string,
    tipoDiagnosticoPrincipal: string,
    valorConsulta: string,
    valorCuotaModeradora: string,
    valorNeto: string,
    edad: string,
    unidadMedidaEdad: string,
    sexo: string
  )
  {
    /** The values in column order. */
    function Fields(): (r: seq<string>)
      ensures |r| == 22
    {
      [numFactura, codPrestador, tipoDocumento, numDocumento, fechaConsulta, numAutorizacion, codConsulta, codConsultaSistema, descripcionConsulta, finalidadConsulta, causaExterna, diagnosticoPrincipal, diagnosticoRelacionado1, diagnosticoRelacionado2, diagnosticoRelacionado3, tipoDiagnosticoPrincipal, valorConsulta, valorCuotaModeradora, valorNeto, edad, unidadMedidaEdad, sexo]
    }
  }

  /** The record whose i-th declared field is the line's i-th field. */
  function ACFromFields(f: seq<string>): (r: ACRecord)
    requires |f| == 22
  {
    ACRecord(f[0], f[1], f[2], f[3], f[4], f[5], f[6], f[7], f[8], f[9], f[10], f[11], f[12], f[13], f[14], f[15], f[16], f[17], f[18], f[19], f[20], f[21])
  }

  /** A record built from a line's fields lists those fields again, in order. */
  lemma ACFieldsOfFromFields(f: seq<string>)
    requires |f| == 22
    ensures ACFromFields(f).Fields() == f
  {
  }

  /** A record is determined by its fields. */
  lemma ACFromFieldsOfFields(x: ACRecord)
    ensures ACFromFields(x.Fields()) == x
  {
  }

  /** The AP file: one procedure per line. */
  datatype APRecord = APRecord(
    numFactura: string,
    codPrestador: string,
    tipoDocumento: string,
    numDocumento: string,
    fechaProcedimiento: string,
    numAutorizacion: string,
    codProcedimiento: string,
    codProcedimientoSistema: string,
    descripcionProcedimiento: string,
    ambitoProcedimiento: string,
    finalidadProcedimiento: string,
    personalAtiende: string,
    diagnosticoPrincipal: string,
    diagnosticoRelacionado: string,
    complicacion: string,
    formaRealizacion: string,
    valorProcedimiento: string,
    valorCuotaModeradora: string,
    valorNeto: string,
    edad: string,
    unidadMedidaEdad: string,
    sexo: string
  )
  {
    /** The values in column order. */
    function Fields(): (r: seq<string>)
      ensures |r| == 22
    {
      [numFactura, codPrestador, tipoDocumento, numDocumento, fechaProcedimiento, numAutorizacion, codProcedimiento, codProcedimientoSistema, descripcionProcedimiento, ambitoProcedimiento, finalidadProcedimiento, personalAtiende, diagnosticoPrincipal, diagnosticoRelacionado, complicacion, formaRealizacion, valorProcedimiento, valorCuotaModeradora, valorNeto, edad, unidadMedidaEdad, sexo]
    }
  }

  /** The record whose i-th declared field is the line's i-th field. */
  function APFromFields(f: seq<string>): (r: APRecord)
    requires |f| == 22
  {
    APRecord(f[0], f[1], f[2], f[3], f[4], f[5], f[6], f[7], f[8], f[9], f[10], f[11], f[12], f[13], f[14], f[15], f[16], f[17], f[18], f[19], f[20], f[21])
  }

  /** A record built from a line's fields lists those fields again, in order. */
  lemma APFieldsOfFromFields(f: seq<string>)
    requires |f| == 22
    ensures APFromFields(f).Fields() == f
  {
  }

  /** A record is determined by its fields. */
  lemma APFromFieldsOfFields(x: APRecord)
    ensures APFromFields(x.Fields()) == x
  {
  }

  /** The AT file: one other service per line. */
  datatype ATRecord = ATRecord(
    numFactura: string,
    codPrestador: string,
    tipoDocumento: string,
    numDocumento: string,
    numAutorizacion: string,
    tipoServicio: string,
    codServicio: string,
    codServicioSistema: string,
    descripcionServicio: string,
    cantidad: string,
    valorUnitario: string,
    valorTotal: string,
    valorCuotaModeradora: string,
    valorNeto: string
  )
  {
    /** The values in column order. */
    function Fields(): (r: seq<string>)
      ensures |r| == 14
    {
      [numFactura, codPrestador, tipoDocumento, numDocumento, numAutorizacion, tipoServicio, codServicio, codServicioSistema, descripcionServicio, cantidad, valorUnitario, valorTotal, valorCuotaModeradora, valorNeto]
    }
  }

  /** The record whose i-th declared field is the line's i-th field. */
  function ATFromFields(f: seq<string>): (r: ATRecord)
    requires |f| == 14
  {
    ATRecord(f[0], f[1], f[2], f[3], f[4], f[5], f[6], f[7], f[8], f[9], f[10], f[11], f[12], f[13])
  }

  /** A record built from a line's fields lists those fields again, in order. */
  lemma ATFieldsOfFromFields(f: seq<string>)
    requires |f| == 14
    ensures ATFromFields(f).Fields() == f
  {
  }

  /** A record is determined by its fields. */
  lemma ATFromFieldsOfFields(x: ATRecord)
    ensures ATFromFields(x.Fields()) == x
  {
  }

  /** The AH file: one hospital stay per line. */
  datatype AHRecord = AHRecord(
    numFactura: string,
    codPrestador: string,
    tipoDocumento: string,
    numDocumento: string,
    viaIngreso: string,
    fechaIngreso: string,
    horaIngreso: string,
    numAutorizacion: string,
    causaExterna: string,
    diagnosticoIngreso: string,
    diagnosticoEgreso: string,
    diagnosticoRelacionado1: string,
    diagnosticoRelacionado2: string,
    diagnosticoRelacionado3: string,
    diagnosticoComplicacion: string,
    estadoSalida: string,
    diagnosticoMuerte: string,
    fechaEgreso: string,
    horaEgreso: string,
    valorHospitalizacion: string,
    valorCuotaModeradora: string,
    valorNeto: string
  )
  {
    /** The values in column order. */
    function Fields(): (r: seq<string>)
      ensures |r| == 22
    {
      [numFactura, codPrestador, tipoDocumento, numDocumento, viaIngreso, fechaIngreso, horaIngreso, numAutorizacion, causaExterna, diagnosticoIngreso, diagnosticoEgreso, diagnosticoRelacionado1, diagnosticoRelacionado2, diagnosticoRelacionado3, diagnosticoComplicacion, estadoSalida, diagnosticoMuerte, fechaEgreso, horaEgreso, valorHospitalizacion, valorCuotaModeradora, valorNeto]
    }
  }

  /** The record whose i-th declared field is the line's i-th field. */
  function AHFromFields(f: seq<string>): (r: AHRecord)
    requires |f| == 22
  {
    AHRecord(f[0], f[1], f[2], f[3], f[4], f[5], f[6], f[7], f[8], f[9], f[10], f[11], f[12], f[13], f[14], f[15], f[16], f[17], f[18], f[19], f[20], f[21])
  }

  /** A record built from a line's fields lists those fields again, in order. */
  lemma AHFieldsOfFromFields(f: seq<string>)
    requires |f| == 22
    ensures AHFromFields(f).Fields() == f
  {
  }

  /** A record is determined by its fields. */
  lemma AHFromFieldsOfFields(x: AHRecord)
    ensures AHFromFields(x.Fields()) == x
  {
  }

  /** A parsed line of one of the six kinds the reader builds records for. */
  datatype Record =
    | AFLine(af: AFRecord)
    | USLine(us: USRecord)
    | ACLine(ac: ACRecord)
    | APLine(ap: APRecord)
    | ATLine(at: ATRecord)
    | AHLine(ah: AHRecord)
  {
    function Fields(): (r: seq<string>)
    {
      match this
      case AFLine(x) => x.Fields()
      case USLine(x) => x.Fields()
      case ACLine(x) => x.Fields()
      case APLine(x) => x.Fields()
      case ATLine(x) => x.Fields()
      case AHLine(x) => x.Fields()
    }
  }
}
