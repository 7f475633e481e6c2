/**
 * The values that flow through shipment creation: the request DTO, the
 * persisted `Envio` entity, the response DTO, and the outcomes that the two
 * external collaborators (CEP validation and the freight gateway) return.
 * Weight, measurements and price are carried through unchanged; no
 * arithmetic is done on them, so they are modelled as `real` (C# `decimal`).
 */
module Dominio {
  import opened Wrappers

  /** A .NET `Guid`: a 128-bit value; `Guid.Empty` is the all-zero one. */
  newtype Guid = x: int | 0 <= x < 0x1_0000_0000_0000_0000_0000_0000_0000_0000

  const Empty: Guid := 0

  /** A .NET `DateTime`, as its tick count (0 .. DateTime.MaxValue.Ticks). */
  newtype DateTime = ticks: int | 0 <= ticks <= 3155378975999999999

  /** `EnvioCreateRequest`, the body of POST api/envios. */
  datatype EnvioCreateRequest = EnvioCreateRequest(
    RemetenteCep: string,
    DestinatarioCep: string,
    PesoKg: real,
    AlturaCm: real,
    LarguraCm: real,
    ComprimentoCm: real)

  /** The persisted shipment record (`Domain.Envio`). */
  datatype Envio = Envio(
    UserId: Guid,
    RemetenteCep: string,
    DestinatarioCep: string,
    PesoKg: real,
    AlturaCm: real,
    LarguraCm: real,
    ComprimentoCm: real,
    ValorFrete: real,
    PrazoDias: int,
    CriadoEm: DateTime)

  /** `EnvioCadastroResponse`: what the caller gets back on success. */
  datatype EnvioCadastroResponse = EnvioCadastroResponse(
    RemetenteCep: string,
    DestinatarioCep: string,
    PesoKg: real,
    AlturaCm: real,
    LarguraCm: real,
    ComprimentoCm: real,
    ValorFrete: real,
    PrazoDias: int)

  /** The tuple `(ok, msg)` returned by `IEnderecoService.ValidarCepAsync`. */
  datatype ValidacaoCep = ValidacaoCep(ok: bool, msg: Option<string>)

  /** The six named arguments of `IFreteGateway.CalcularAsync`. */
  datatype ConsultaFrete = ConsultaFrete(
    remetenteCep: string,
    destinatarioCep: string,
    pesoKg: real,
    alturaCm: real,
    larguraCm: real,
    comprimentoCm: real)

  /** The result of `IFreteGateway.CalcularAsync`: `ok`, `msg`, `valor`, `prazoDias`. */
  datatype Frete = Frete(ok: bool, msg: Option<string>, valor: real, prazoDias: int)

  /** The request fields that an `Envio` copies. */
  predicate CopiaDoPedido(e: Envio, request: EnvioCreateRequest)
  {
    && e.RemetenteCep == request.RemetenteCep
    && e.DestinatarioCep == request.DestinatarioCep
    && e.PesoKg == request.PesoKg
    && e.AlturaCm == request.AlturaCm
    && e.LarguraCm == request.LarguraCm
    && e.ComprimentoCm == request.ComprimentoCm
  }

  /**
   * The response built from a persisted record: every field it has is the
   * record's (see `Propriedades.RespostaOmiteDonoEData` for what it leaves out).
   */
  function Resposta(e: Envio): (r: EnvioCadastroResponse)
    ensures r.RemetenteCep == e.RemetenteCep && r.DestinatarioCep == e.DestinatarioCep
    ensures r.PesoKg == e.PesoKg && r.AlturaCm == e.AlturaCm
    ensures r.LarguraCm == e.LarguraCm && r.ComprimentoCm == e.ComprimentoCm
    ensures r.ValorFrete == e.ValorFrete && r.PrazoDias == e.PrazoDias
  {
    EnvioCadastroResponse(
      RemetenteCep := e.RemetenteCep,
      DestinatarioCep := e.DestinatarioCep,
      PesoKg := e.PesoKg,
      AlturaCm := e.AlturaCm,
      LarguraCm := e.LarguraCm,
      ComprimentoCm := e.ComprimentoCm,
      ValorFrete := e.ValorFrete,
      PrazoDias := e.PrazoDias)
  }
}
