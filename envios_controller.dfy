/**
 * `EnviosController`: the POST api/envios action `CadastrarEnvio` and its
 * helper `GetUserId`.
 *
 * The action is a first-failure-wins chain: model state, caller identity,
 * origin CEP, destination CEP, freight quote, then one stored record and a
 * response projected from it. `Cadastro` states the whole chain as a
 * function of its inputs and the collaborators' answers; the class method
 * `CadastrarEnvio` runs it step by step against the store and is proved
 * equal to it.
 */
module Controllers {
  import opened Wrappers
  import opened Dominio

  const MsgRemetenteInvalido := "CEP de remetente inválido."
  const MsgDestinatarioInvalido := "CEP de destinatário inválido."
  const MsgFreteIndisponivel := "Não foi possível calcular o frete."

  /** What the action returns, one constructor per `return` in the source. */
  datatype Resultado =
    | BadRequestModelState                              // BadRequest(ModelState)
    | Unauthorized                                      // Unauthorized()
    | BadRequestCampo(message: string, campo: string)   // BadRequest(new { message, campo })
    | BadRequestFrete(message: string)                  // BadRequest(new { message })
    | Ok(resposta: EnvioCadastroResponse)               // Ok(resposta)

  /** One interaction of the action with something outside it, in order. */
  datatype Chamada =
    | ObterUsuario                   // GetUserId(): the caller's NameIdentifier claim
    | ValidarCep(cep: string)        // IEnderecoService.ValidarCepAsync
    | CalcularFrete(c: ConsultaFrete) // IFreteGateway.CalcularAsync
    | Gravar(e: Envio)               // _db.Envios.Add + SaveChangesAsync

  /** The outcome of one run: the result and the interactions it made. */
  datatype Execucao = Execucao(resultado: Resultado, chamadas: seq<Chamada>)

  /**
   * The caller's id: the NameIdentifier claim parsed as a Guid, or
   * `Guid.Empty` when the claim is absent or does not parse. `tryParse`
   * stands for `Guid.TryParse`.
   */
  function GetUserId(claim: Option<string>, tryParse: string -> Option<Guid>): (id: Guid)
    ensures claim.None? ==> id == Empty
    ensures claim.Some? && tryParse(claim.value).None? ==> id == Empty
    ensures claim.Some? && tryParse(claim.value).Some? ==> id == tryParse(claim.value).value
  {
    match claim
    case None => Empty
    case Some(v) =>
      match tryParse(v)
      case Some(id) => id
      case None => Empty
  }

  /** The records a sequence of interactions wrote to the store, in order. */
  function Gravacoes(cs: seq<Chamada>): (es: seq<Envio>)
    ensures |es| <= |cs|
  {
    if cs == [] then []
    else (if cs[0].Gravar? then [cs[0].e] else []) + Gravacoes(cs[1..])
  }

  /** How many times a sequence of interactions called the freight gateway. */
  function ChamadasAoGateway(cs: seq<Chamada>): (n: nat)
    ensures n <= |cs|
    ensures n == 0 <==> forall i :: 0 <= i < |cs| ==> !cs[i].CalcularFrete?
  {
    if cs == [] then 0
    else (if cs[0].CalcularFrete? then 1 else 0) + ChamadasAoGateway(cs[1..])
  }

  /** The records written by two consecutive stretches of interactions. */
  lemma {:induction false} GravacoesConcat(a: seq<Chamada>, b: seq<Chamada>)
    ensures Gravacoes(a + b) == Gravacoes(a) + Gravacoes(b)
  {
    if a != [] {
      assert (a + b)[1..] == a[1..] + b;
      GravacoesConcat(a[1..], b);
    } else {
      assert a + b == b;
    }
  }

  /** A record is among those written exactly when the interactions hold a write of it. */
  lemma {:induction false} GravadoSeGravar(cs: seq<Chamada>, e: Envio)
    ensures e in Gravacoes(cs) <==> Gravar(e) in cs
  {
    if cs != [] {
      GravadoSeGravar(cs[1..], e);
      assert cs == [cs[0]] + cs[1..];
    }
  }

  /** Interactions that hold no write wrote nothing. */
  lemma {:induction false} GravacoesSemGravar(cs: seq<Chamada>)
    requires forall i :: 0 <= i < |cs| ==> !cs[i].Gravar?
    ensures Gravacoes(cs) == []
  {
    if cs != [] {
      GravacoesSemGravar(cs[1..]);
    }
  }

  /** What one more interaction adds to the records written. */
  lemma GravacoesAposChamada(cs: seq<Chamada>, c: Chamada)
    ensures Gravacoes(cs + [c]) == Gravacoes(cs) + (if c.Gravar? then [c.e] else [])
  {
    GravacoesConcat(cs, [c]);
  }

  /** Gateway calls made by two consecutive stretches of interactions add up. */
  lemma {:induction false} ChamadasAoGatewayConcat(a: seq<Chamada>, b: seq<Chamada>)
    ensures ChamadasAoGateway(a + b) == ChamadasAoGateway(a) + ChamadasAoGateway(b)
  {
    if a != [] {
      assert (a + b)[1..] == a[1..] + b;
      ChamadasAoGatewayConcat(a[1..], b);
    } else {
      assert a + b == b;
    }
  }

  /**
   * One run of `CadastrarEnvio`. `modelStateValido` is `ModelState.IsValid`,
   * `claim`/`tryParse` feed `GetUserId`, `validarCep` and `calcularFrete` are
   * the injected collaborators and `agora` is `DateTime.UtcNow`.
   */
  function Cadastro(
    validarCep: string -> ValidacaoCep,
    calcularFrete: ConsultaFrete -> Frete,
    modelStateValido: bool,
    claim: Option<string>,
    tryParse: string -> Option<Guid>,
    request: EnvioCreateRequest,
    agora: DateTime): Execucao
  {
    if !modelStateValido then
      Execucao(BadRequestModelState, [])
    else
      var userId := GetUserId(claim, tryParse);
      if userId == Empty then
        Execucao(Unauthorized, [ObterUsuario])
      else
        var remetente := validarCep(request.RemetenteCep);
        if !remetente.ok then
          Execucao(BadRequestCampo(remetente.msg.GetOr(MsgRemetenteInvalido), "remetenteCep"),
                   [ObterUsuario, ValidarCep(request.RemetenteCep)])
        else
          var destinatario := validarCep(request.DestinatarioCep);
          if !destinatario.ok then
            Execucao(BadRequestCampo(destinatario.msg.GetOr(MsgDestinatarioInvalido), "destinatarioCep"),
                     [ObterUsuario, ValidarCep(request.RemetenteCep), ValidarCep(request.DestinatarioCep)])
          else
            var consulta := ConsultaDe(request);
            var frete := calcularFrete(consulta);
            if !frete.ok then
              Execucao(BadRequestFrete(frete.msg.GetOr(MsgFreteIndisponivel)),
                       [ObterUsuario, ValidarCep(request.RemetenteCep), ValidarCep(request.DestinatarioCep),
                        CalcularFrete(consulta)])
            else
              var envio := NovoEnvio(userId, request, frete, agora);
              Execucao(Ok(Resposta(envio)),
                       [ObterUsuario, ValidarCep(request.RemetenteCep), ValidarCep(request.DestinatarioCep),
                        CalcularFrete(consulta), Gravar(envio)])
  }

  /** The gateway's arguments: the request's two CEPs and four measurements, unchanged. */
  function ConsultaDe(request: EnvioCreateRequest): (c: ConsultaFrete)
    ensures c.remetenteCep == request.RemetenteCep && c.destinatarioCep == request.DestinatarioCep
    ensures c.pesoKg == request.PesoKg && c.alturaCm == request.AlturaCm
    ensures c.larguraCm == request.LarguraCm && c.comprimentoCm == request.ComprimentoCm
  {
    ConsultaFrete(
      remetenteCep := request.RemetenteCep,
      destinatarioCep := request.DestinatarioCep,
      pesoKg := request.PesoKg,
      alturaCm := request.AlturaCm,
      larguraCm := request.LarguraCm,
      comprimentoCm := request.ComprimentoCm)
  }

  /** The record built on the success path (`new Envio { ... }`). */
  function NovoEnvio(userId: Guid, request: EnvioCreateRequest, frete: Frete, agora: DateTime): (e: Envio)
    ensures e.UserId == userId && CopiaDoPedido(e, request)
    ensures e.ValorFrete == frete.valor && e.PrazoDias == frete.prazoDias && e.CriadoEm == agora
  {
    Envio(
      UserId := userId,
      RemetenteCep := request.RemetenteCep,
      DestinatarioCep := request.DestinatarioCep,
      PesoKg := request.PesoKg,
      AlturaCm := request.AlturaCm,
      LarguraCm := request.LarguraCm,
      ComprimentoCm := request.ComprimentoCm,
      ValorFrete := frete.valor,
      PrazoDias := frete.prazoDias,
      CriadoEm := agora)
  }

  class EnviosController {
    /** `_enderecoService.ValidarCepAsync`, injected by the constructor. */
    const enderecoService: string -> ValidacaoCep
    /** `_freteGateway.CalcularAsync`, injected by the constructor. */
    const freteGateway: ConsultaFrete -> Frete
    /** The `Envios` set of `_db`, in insertion order. */
    var envios: seq<Envio>
    /** Every interaction the controller has made, across all calls. */
    ghost var chamadas: seq<Chamada>
    /** The store's contents when the controller was created. */
    ghost const inicial: seq<Envio>

    /** The store holds what it started with plus every record this controller wrote. */
    ghost predicate Valid()
      reads this
    {
      envios == inicial + Gravacoes(chamadas)
    }

    constructor (db: seq<Envio>, enderecoService: string -> ValidacaoCep, freteGateway: ConsultaFrete -> Frete)
      ensures Valid()
      ensures envios == db && chamadas == []
      ensures this.enderecoService == enderecoService && this.freteGateway == freteGateway
    {
      envios := db;
      chamadas := [];
      inicial := db;
      this.enderecoService := enderecoService;
      this.freteGateway := freteGateway;
    }

    method CadastrarEnvio(
      modelStateValido: bool,
      claim: Option<string>,
      tryParse: string -> Option<Guid>,
      request: EnvioCreateRequest,
      agora: DateTime)
      returns (r: Resultado)
      requires Valid()
      modifies this
      ensures Valid()
      ensures var x := Cadastro(enderecoService, freteGateway, modelStateValido, claim, tryParse, request, agora);
        && r == x.resultado
        && chamadas == old(chamadas) + x.chamadas
        && envios == old(envios) +
             if r.Ok? then [NovoEnvio(GetUserId(claim, tryParse), request, freteGateway(ConsultaDe(request)), agora)]
             else []
    {
      if !modelStateValido {
        return BadRequestModelState;
      }

      GravacoesAposChamada(chamadas, ObterUsuario);
      chamadas := chamadas + [ObterUsuario];
      var userId := GetUserId(claim, tryParse);
      if userId == Empty {
        return Unauthorized;
      }

      GravacoesAposChamada(chamadas, ValidarCep(request.RemetenteCep));
      chamadas := chamadas + [ValidarCep(request.RemetenteCep)];
      var remetente := enderecoService(request.RemetenteCep);
      if !remetente.ok {
        return BadRequestCampo(remetente.msg.GetOr(MsgRemetenteInvalido), "remetenteCep");
      }

      GravacoesAposChamada(chamadas, ValidarCep(request.DestinatarioCep));
      chamadas := chamadas + [ValidarCep(request.DestinatarioCep)];
      var destinatario := enderecoService(request.DestinatarioCep);
      if !destinatario.ok {
        return BadRequestCampo(destinatario.msg.GetOr(MsgDestinatarioInvalido), "destinatarioCep");
      }

      var consulta := ConsultaDe(request);
      GravacoesAposChamada(chamadas, CalcularFrete(consulta));
      chamadas := chamadas + [CalcularFrete(consulta)];
      var frete := freteGateway(consulta);
      if !frete.ok {
        return BadRequestFrete(frete.msg.GetOr(MsgFreteIndisponivel));
      }

      var envio := NovoEnvio(userId, request, frete, agora);
      envios := envios + [envio];
      GravacoesAposChamada(chamadas, Gravar(envio));
      chamadas := chamadas + [Gravar(envio)];

      var resposta := Resposta(envio);
      return Ok(resposta);
    }
  }
}
