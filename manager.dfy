/** The payment manager (manager.go): the installed gateway per payment
    method, the factories that can build one from a configuration, and the
    dispatch of the four payment operations to the installed gateway. */
module Manager {
  import opened Sequences
  import opened PaymentTypes

  /** The timeout the shared client gets when the caller passes zero. */
  const DefaultTimeout: Duration := 30 * Second

  /** The client timeout NewPaymentManager settles on. */
  function ClientTimeout(timeout: Duration): (t: Duration)
    ensures timeout == 0 ==> t == DefaultTimeout
    ensures timeout != 0 ==> t == timeout
    ensures t != 0
  {
    if timeout == 0 then DefaultTimeout else timeout
  }

  class PaymentManager {
    var gateways: map<Method, Gateway>
    var factories: map<Method, GatewayFactory>
    /** The client handed to every factory; set once, at construction. */
    const client: HttpClient

    /** NewPaymentManager: no gateways, no factories, and a client whose
        timeout is the given one, or 30 seconds for zero. */
    constructor (timeout: Duration)
      ensures gateways == map[] && factories == map[]
      ensures client == HttpClient(ClientTimeout(timeout))
    {
      gateways := map[];
      factories := map[];
      client := HttpClient(ClientTimeout(timeout));
    }

    /** Records f as the factory for m, replacing any earlier one. */
    method RegisterFactory(m: Method, f: GatewayFactory)
      modifies this
      ensures factories == old(factories)[m := f]
      ensures gateways == old(gateways)
    {
      factories := factories[m := f];
    }

    /** Installs g as the gateway for m, replacing any earlier one. */
    method RegisterGateway(m: Method, g: Gateway)
      modifies this
      ensures gateways == old(gateways)[m := g]
      ensures factories == old(factories)
    {
      gateways := gateways[m := g];
    }

    /** Builds m's gateway with m's factory from cfg and the shared client
        and installs it; without a factory for m, fails and changes nothing. */
    method RegisterGatewayWithConfig(m: Method, cfg: GatewayConfig) returns (o: Outcome)
      modifies this
      ensures factories == old(factories)
      ensures m !in factories ==> o == Fail(NoFactory(m)) && gateways == old(gateways)
      ensures m in factories ==> o == Pass && gateways == old(gateways)[m := factories[m](cfg, client)]
      ensures o.Fail? ==> o.error.Message() == "no factory registered for method: " + m
    {
      if m !in factories {
        return Fail(NoFactory(m));
      }
      var factory := factories[m];
      var gateway := factory(cfg, client);
      gateways := gateways[m := gateway];
      o := Pass;
    }

    /** The gateway installed for m, or the error naming m. */
    method GetGateway(m: Method) returns (r: Result<Gateway>)
      ensures r.Ok? <==> m in gateways
      ensures r.Ok? ==> r.value == gateways[m]
      ensures r.Err? ==> r.error == NotRegistered(m)
      ensures r.Err? ==> r.error.Message() == "gateway " + m + " not registered"
    {
      if m !in gateways {
        return Err(NotRegistered(m));
      }
      r := Ok(gateways[m]);
    }

    /** Every method with an installed gateway, each once, in the map's
        enumeration order. */
    method ListGateways() returns (methods: seq<Method>)
      ensures Distinct(methods)
      ensures forall m :: m in methods <==> m in gateways
      ensures |methods| == |gateways|
    {
      methods := Enumerate(gateways.Keys);
    }

    /** Starts a payment through m's gateway, passing its answer on as is. */
    method InitiatePayment(m: Method, req: PaymentRequest) returns (r: Result<PaymentResponse>)
      ensures m !in gateways ==> r == Err(NotRegistered(m))
      ensures m in gateways ==> r == gateways[m].initiate(req)
    {
      var g := GetGateway(m);
      if g.Err? {
        return Err(g.error);
      }
      r := g.value.initiate(req);
    }

    /** Verifies a payment through m's gateway, passing its answer on as is. */
    method VerifyPayment(m: Method, req: VerificationRequest) returns (r: Result<VerificationResponse>)
      ensures m !in gateways ==> r == Err(NotRegistered(m))
      ensures m in gateways ==> r == gateways[m].verify(req)
    {
      var g := GetGateway(m);
      if g.Err? {
        return Err(g.error);
      }
      r := g.value.verify(req);
    }

    /** Refunds through m's gateway, passing its answer on as is. */
    method RefundPayment(m: Method, req: RefundRequest) returns (r: Result<RefundResponse>)
      ensures m !in gateways ==> r == Err(NotRegistered(m))
      ensures m in gateways ==> r == gateways[m].refund(req)
    {
      var g := GetGateway(m);
      if g.Err? {
        return Err(g.error);
      }
      r := g.value.refund(req);
    }

    /** Asks m's gateway for a transaction's status, passing its answer on as is. */
    method GetStatus(m: Method, transactionId: string) returns (r: Result<StatusResponse>)
      ensures m !in gateways ==> r == Err(NotRegistered(m))
      ensures m in gateways ==> r == gateways[m].status(transactionId)
    {
      var g := GetGateway(m);
      if g.Err? {
        return Err(g.error);
      }
      r := g.value.status(transactionId);
    }
  }

  /** The intended use: register a factory, build the gateway from a
      configuration, then pay. The payment goes to the gateway the factory
      built from that configuration and the manager's client. */
  method ConfigureAndPay(pm: PaymentManager, m: Method, f: GatewayFactory, cfg: GatewayConfig, req: PaymentRequest)
    returns (o: Outcome, r: Result<PaymentResponse>)
    modifies pm
    ensures o == Pass
    ensures r == f(cfg, pm.client).initiate(req)
    ensures pm.factories == old(pm.factories)[m := f]
  {
    pm.RegisterFactory(m, f);
    o := pm.RegisterGatewayWithConfig(m, cfg);
    r := pm.InitiatePayment(m, req);
  }

  /** With neither a factory nor an installed gateway for m, configuring
      fails and changes nothing, and a payment through m reports m as not
      registered. */
  method ConfigureWithoutFactory(pm: PaymentManager, m: Method, cfg: GatewayConfig, req: PaymentRequest)
    returns (o: Outcome, r: Result<PaymentResponse>)
    requires m !in pm.factories && m !in pm.gateways
    modifies pm
    ensures o == Fail(NoFactory(m))
    ensures r == Err(NotRegistered(m))
    ensures pm.gateways == old(pm.gateways) && pm.factories == old(pm.factories)
  {
    o := pm.RegisterGatewayWithConfig(m, cfg);
    r := pm.InitiatePayment(m, req);
  }
}
