/**
 * What `CadastrarEnvio` promises, stated over `Controllers.Cadastro` (the
 * function the class method is proved equal to). In every lemma `v` is the
 * CEP validator, `f` the freight gateway, `valido` is `ModelState.IsValid`,
 * `claim`/`tp` give the caller's id through `GetUserId`, and `agora` is the
 * clock reading.
 */
module Propriedades {
  import opened Wrappers
  import opened Dominio
  import opened Controllers

  /** Every stage before the gateway passed. */
  predicate ValidacoesPassam(v: string -> ValidacaoCep, valido: bool, userId: Guid, request: EnvioCreateRequest)
  {
    valido && userId != Empty && v(request.RemetenteCep).ok && v(request.DestinatarioCep).ok
  }

  /** Invalid model state: BadRequest, and nothing at all is looked up or called. */
  lemma ModelStateInvalido(
    v: string -> ValidacaoCep, f: ConsultaFrete -> Frete, valido: bool,
    claim: Option<string>, tp: string -> Option<Guid>, request: EnvioCreateRequest, agora: DateTime)
    ensures var x := Cadastro(v, f, valido, claim, tp, request, agora);
      && (x.resultado == BadRequestModelState <==> !valido)
      && (!valido ==> x.chamadas == [])
  {
  }

  /** The id is `Guid.Empty` exactly when the claim is absent, unparseable, or the all-zero Guid. */
  lemma UserIdVazio(claim: Option<string>, tp: string -> Option<Guid>)
    ensures GetUserId(claim, tp) == Empty <==>
      claim.None? || tp(claim.value).None? || tp(claim.value) == Some(Empty)
  {
  }

  /**
   * Unauthorized exactly when the model state is valid and the id is Empty;
   * then only the identity lookup happened: no CEP check, gateway or store.
   */
  lemma SemUsuarioNaoAutoriza(
    v: string -> ValidacaoCep, f: ConsultaFrete -> Frete, valido: bool,
    claim: Option<string>, tp: string -> Option<Guid>, request: EnvioCreateRequest, agora: DateTime)
    ensures var x := Cadastro(v, f, valido, claim, tp, request, agora);
      && (x.resultado == Unauthorized <==> valido && GetUserId(claim, tp) == Empty)
      && (x.resultado == Unauthorized ==> x.chamadas == [ObterUsuario])
  {
  }

  /**
   * A rejected origin CEP: BadRequest on "remetenteCep" with the validator's
   * text, or the fixed fallback when it gave none; the destination is never
   * validated and neither the gateway nor the store is touched.
   */
  lemma RemetenteRecusado(
    v: string -> ValidacaoCep, f: ConsultaFrete -> Frete, valido: bool,
    claim: Option<string>, tp: string -> Option<Guid>, request: EnvioCreateRequest, agora: DateTime)
    requires valido && GetUserId(claim, tp) != Empty
    requires !v(request.RemetenteCep).ok
    ensures var x := Cadastro(v, f, valido, claim, tp, request, agora);
      var msg := v(request.RemetenteCep).msg;
      && x.resultado.BadRequestCampo?
      && x.resultado.campo == "remetenteCep"
      && (msg.Some? ==> x.resultado.message == msg.value)
      && (msg.None? ==> x.resultado.message == MsgRemetenteInvalido)
      && x.chamadas == [ObterUsuario, ValidarCep(request.RemetenteCep)]
  {
  }

  /** With the origin rejected, the destination's validity and the gateway make no difference. */
  lemma RemetenteRecusadoIgnoraDestino(
    v1: string -> ValidacaoCep, v2: string -> ValidacaoCep,
    f1: ConsultaFrete -> Frete, f2: ConsultaFrete -> Frete, valido: bool,
    claim: Option<string>, tp: string -> Option<Guid>, request: EnvioCreateRequest, agora: DateTime)
    requires v1(request.RemetenteCep) == v2(request.RemetenteCep)
    requires !v1(request.RemetenteCep).ok
    ensures Cadastro(v1, f1, valido, claim, tp, request, agora) == Cadastro(v2, f2, valido, claim, tp, request, agora)
  {
  }

  /**
   * Origin accepted, destination rejected: BadRequest on "destinatarioCep"
   * with the validator's text or the fixed fallback; gateway and store untouched.
   */
  lemma DestinatarioRecusado(
    v: string -> ValidacaoCep, f: ConsultaFrete -> Frete, valido: bool,
    claim: Option<string>, tp: string -> Option<Guid>, request: EnvioCreateRequest, agora: DateTime)
    requires valido && GetUserId(claim, tp) != Empty
    requires v(request.RemetenteCep).ok && !v(request.DestinatarioCep).ok
    ensures var x := Cadastro(v, f, valido, claim, tp, request, agora);
      var msg := v(request.DestinatarioCep).msg;
      && x.resultado.BadRequestCampo?
      && x.resultado.campo == "destinatarioCep"
      && (msg.Some? ==> x.resultado.message == msg.value)
      && (msg.None? ==> x.resultado.message == MsgDestinatarioInvalido)
      && x.chamadas == [ObterUsuario, ValidarCep(request.RemetenteCep), ValidarCep(request.DestinatarioCep)]
  {
  }

  /** With the destination rejected, the gateway's behaviour makes no difference. */
  lemma DestinatarioRecusadoIgnoraGateway(
    v: string -> ValidacaoCep, f1: ConsultaFrete -> Frete, f2: ConsultaFrete -> Frete, valido: bool,
    claim: Option<string>, tp: string -> Option<Guid>, request: EnvioCreateRequest, agora: DateTime)
    requires !v(request.DestinatarioCep).ok
    ensures Cadastro(v, f1, valido, claim, tp, request, agora) == Cadastro(v, f2, valido, claim, tp, request, agora)
  {
  }

  /**
   * The gateway is called once when both CEPs were accepted and never
   * otherwise; that call comes right after the two validations and carries
   * the request's CEPs and measurements unchanged.
   */
  lemma GatewayChamadoUmaVez(
    v: string -> ValidacaoCep, f: ConsultaFrete -> Frete, valido: bool,
    claim: Option<string>, tp: string -> Option<Guid>, request: EnvioCreateRequest, agora: DateTime)
    ensures var x := Cadastro(v, f, valido, claim, tp, request, agora);
      && ChamadasAoGateway(x.chamadas) == (if ValidacoesPassam(v, valido, GetUserId(claim, tp), request) then 1 else 0)
      && forall i :: 0 <= i < |x.chamadas| && x.chamadas[i].CalcularFrete? ==>
           && x.chamadas[..i] == [ObterUsuario, ValidarCep(request.RemetenteCep), ValidarCep(request.DestinatarioCep)]
           && x.chamadas[i] == CalcularFrete(ConsultaDe(request))
  {
    var x := Cadastro(v, f, valido, claim, tp, request, agora);
    if ValidacoesPassam(v, valido, GetUserId(claim, tp), request) {
      var antes := [ObterUsuario, ValidarCep(request.RemetenteCep), ValidarCep(request.DestinatarioCep)];
      assert ChamadasAoGateway(antes) == 0;
      ChamadasAoGatewayConcat(antes, x.chamadas[3..]);
      assert x.chamadas == antes + x.chamadas[3..];
    }
  }

  /** Gateway refused: BadRequest with its text or the fixed fallback, no field, and no record. */
  lemma FreteRecusado(
    v: string -> ValidacaoCep, f: ConsultaFrete -> Frete, valido: bool,
    claim: Option<string>, tp: string -> Option<Guid>, request: EnvioCreateRequest, agora: DateTime)
    requires ValidacoesPassam(v, valido, GetUserId(claim, tp), request)
    requires !f(ConsultaDe(request)).ok
    ensures var x := Cadastro(v, f, valido, claim, tp, request, agora);
      var msg := f(ConsultaDe(request)).msg;
      && x.resultado.BadRequestFrete?
      && (msg.Some? ==> x.resultado.message == msg.value)
      && (msg.None? ==> x.resultado.message == MsgFreteIndisponivel)
      && Gravacoes(x.chamadas) == []
  {
    GravacoesSemGravar(Cadastro(v, f, valido, claim, tp, request, agora).chamadas);
  }

  /**
   * Success exactly when every stage passes; then exactly one record is
   * written: owned by the resolved id, with the request's CEPs and
   * measurements, the quote's price and lead time, and the clock reading.
   */
  lemma SucessoGravaUmEnvio(
    v: string -> ValidacaoCep, f: ConsultaFrete -> Frete, valido: bool,
    claim: Option<string>, tp: string -> Option<Guid>, request: EnvioCreateRequest, agora: DateTime)
    ensures var x := Cadastro(v, f, valido, claim, tp, request, agora);
      var frete := f(ConsultaDe(request));
      && (x.resultado.Ok? <==> ValidacoesPassam(v, valido, GetUserId(claim, tp), request) && frete.ok)
      && (x.resultado.Ok? ==>
            |Gravacoes(x.chamadas)| == 1
            && var e := Gravacoes(x.chamadas)[0];
            && e.UserId == GetUserId(claim, tp)
            && CopiaDoPedido(e, request)
            && e.ValorFrete == frete.valor && e.PrazoDias == frete.prazoDias
            && e.CriadoEm == agora
            && x.resultado.resposta == Resposta(e))
  {
    var x := Cadastro(v, f, valido, claim, tp, request, agora);
    if x.resultado.Ok? {
      var n := |x.chamadas| - 1;
      GravacoesSemGravar(x.chamadas[..n]);
      GravacoesAposChamada(x.chamadas[..n], x.chamadas[n]);
      assert x.chamadas == x.chamadas[..n] + [x.chamadas[n]];
    }
  }

  /** Every failing run leaves the store as it was. */
  lemma FalhaNaoGrava(
    v: string -> ValidacaoCep, f: ConsultaFrete -> Frete, valido: bool,
    claim: Option<string>, tp: string -> Option<Guid>, request: EnvioCreateRequest, agora: DateTime)
    ensures var x := Cadastro(v, f, valido, claim, tp, request, agora);
      !x.resultado.Ok? ==> Gravacoes(x.chamadas) == []
  {
    var x := Cadastro(v, f, valido, claim, tp, request, agora);
    if !x.resultado.Ok? {
      GravacoesSemGravar(x.chamadas);
    }
  }

  /**
   * The Ok response echoes the request's CEPs and measurements and the
   * quote's price and lead time.
   */
  lemma RespostaEcoaPedidoEFrete(
    v: string -> ValidacaoCep, f: ConsultaFrete -> Frete, valido: bool,
    claim: Option<string>, tp: string -> Option<Guid>, request: EnvioCreateRequest, agora: DateTime)
    ensures var x := Cadastro(v, f, valido, claim, tp, request, agora);
      var frete := f(ConsultaDe(request));
      x.resultado.Ok? ==>
        var r := x.resultado.resposta;
        && r.RemetenteCep == request.RemetenteCep && r.DestinatarioCep == request.DestinatarioCep
        && r.PesoKg == request.PesoKg && r.AlturaCm == request.AlturaCm
        && r.LarguraCm == request.LarguraCm && r.ComprimentoCm == request.ComprimentoCm
        && r.ValorFrete == frete.valor && r.PrazoDias == frete.prazoDias
  {
  }

  /** The response does not depend on the record's owner or creation time. */
  lemma RespostaOmiteDonoEData(e: Envio, u: Guid, t: DateTime)
    ensures Resposta(e.(UserId := u, CriadoEm := t)) == Resposta(e)
  {
  }

  /**
   * Fallbacks replace only an absent text: an empty text from the validator
   * reaches the caller as an empty message.
   */
  lemma MensagemVaziaNaoESubstituida(request: EnvioCreateRequest, agora: DateTime)
    ensures var x := Cadastro(cep => ValidacaoCep(false, Some("")), c => Frete(true, None, 0.0, 0),
                              true, Some("id"), s => Some(1 as Guid), request, agora);
      x.resultado == BadRequestCampo("", "remetenteCep")
  {
  }

  /**
   * Over the controller's whole history `h`, one more run adds exactly its
   * own records and gateway calls: at most one of each.
   */
  lemma {:induction false} RastroAcumulado(
    h: seq<Chamada>,
    v: string -> ValidacaoCep, f: ConsultaFrete -> Frete, valido: bool,
    claim: Option<string>, tp: string -> Option<Guid>, request: EnvioCreateRequest, agora: DateTime)
    ensures var x := Cadastro(v, f, valido, claim, tp, request, agora);
      && Gravacoes(h + x.chamadas) == Gravacoes(h) + Gravacoes(x.chamadas)
      && |Gravacoes(h + x.chamadas)| == |Gravacoes(h)| + (if x.resultado.Ok? then 1 else 0)
      && ChamadasAoGateway(h + x.chamadas) ==
           ChamadasAoGateway(h) + (if ValidacoesPassam(v, valido, GetUserId(claim, tp), request) then 1 else 0)
  {
    var x := Cadastro(v, f, valido, claim, tp, request, agora);
    GravacoesConcat(h, x.chamadas);
    ChamadasAoGatewayConcat(h, x.chamadas);
    SucessoGravaUmEnvio(v, f, valido, claim, tp, request, agora);
    FalhaNaoGrava(v, f, valido, claim, tp, request, agora);
    GatewayChamadoUmaVez(v, f, valido, claim, tp, request, agora);
  }

  /**
   * Calling the action twice with the same request gives the same result
   * both times (nothing from the first call leaks into the second); after a
   * failure the store is as it was.
   */
  method RepetirCadastro(
    c: EnviosController, valido: bool, claim: Option<string>, tp: string -> Option<Guid>,
    request: EnvioCreateRequest, agora: DateTime)
    returns (r1: Resultado, r2: Resultado)
    requires c.Valid()
    modifies c
    ensures c.Valid()
    ensures r2 == r1
    ensures !r1.Ok? ==> c.envios == old(c.envios)
  {
    r1 := c.CadastrarEnvio(valido, claim, tp, request, agora);
    r2 := c.CadastrarEnvio(valido, claim, tp, request, agora);
  }

  /** Both CEPs accepted, quote 34.90 in 5 days: the confirmation echoes the request and the quote. */
  lemma CenarioSucesso(agora: DateTime)
    ensures var request := EnvioCreateRequest("01310-100", "20040-020", 2.5, 30.0, 20.0, 15.0);
      var x := Cadastro(cep => ValidacaoCep(true, None), c => Frete(true, None, 34.90, 5),
                        true, Some("id"), s => Some(7 as Guid), request, agora);
      x.resultado == Ok(EnvioCadastroResponse("01310-100", "20040-020", 2.5, 30.0, 20.0, 15.0, 34.90, 5))
  {
  }

  /** Origin "00000-000" rejected with "CEP inexistente": that text on "remetenteCep", nothing else called. */
  lemma CenarioCepInexistente(agora: DateTime)
    ensures var request := EnvioCreateRequest("00000-000", "20040-020", 2.5, 30.0, 20.0, 15.0);
      var v := (cep: string) => if cep == "00000-000" then ValidacaoCep(false, Some("CEP inexistente"))
                                else ValidacaoCep(true, None);
      var x := Cadastro(v, c => Frete(true, None, 34.90, 5), true, Some("id"), s => Some(7 as Guid), request, agora);
      && x.resultado == BadRequestCampo("CEP inexistente", "remetenteCep")
      && ChamadasAoGateway(x.chamadas) == 0 && Gravacoes(x.chamadas) == []
  {
  }

  /** Gateway refuses without a reason: the fixed fallback message. */
  lemma CenarioFreteSemMotivo(agora: DateTime)
    ensures var request := EnvioCreateRequest("01310-100", "20040-020", 2.5, 30.0, 20.0, 15.0);
      var x := Cadastro(cep => ValidacaoCep(true, None), c => Frete(false, None, 0.0, 0),
                        true, Some("id"), s => Some(7 as Guid), request, agora);
      x.resultado == BadRequestFrete("Não foi possível calcular o frete.")
  {
  }
}
